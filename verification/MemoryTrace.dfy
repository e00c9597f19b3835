/** Traced memory: every block starts with its own size, which is what it is freed
    with, and two counters follow the blocks in use. A block is known by the address of
    that header; callers hold the address behind it. */
module MemoryTrace {
  import opened Common
  import opened FastAllocator

  const HEADER: nat := 8

  /** `size` and `count` are the counters behind `getMemoryUsage` and `getObjectCount`,
      without a limit on their width. */
  datatype Trace = Trace(store: Store, traced: map<nat, nat>, size: int, count: int)

  datatype Result = Block(ptr: nat) | NoMemory | Terminated

  /** The sum of two `size_t` values. */
  function Plus(a: nat, b: nat): (r: nat)
    requires a < SIZE_T && b < SIZE_T
    ensures r < SIZE_T
  {
    if a + b < SIZE_T then a + b else a + b - SIZE_T
  }

  /** `_malloc_throw` and `_malloc_no_throw`; running out of memory is `NoMemory`. */
  function Malloc(t: Trace, sz: nat, answer: nat): (Trace, Result)
    requires sz < SIZE_T
  {
    var allocSize := Plus(HEADER, sz);
    if allocSize < sz then (t, Terminated)
    else
      var (store, ptr) := Allocated(t.store, allocSize, answer);
      if ptr == 0 then (t.(store := store), NoMemory)
      else (Trace(store, t.traced[ptr := allocSize], t.size + allocSize, t.count + 1), Block(ptr))
  }

  /** `_free_set_nullptr`: the size comes from the block's header. */
  function Release(t: Trace, ptr: nat): Trace
    requires ptr == 0 || ptr in t.traced
  {
    if ptr == 0 then t
    else
      var allocSize := t.traced[ptr];
      Trace(Freed(t.store, ptr, allocSize), t.traced - {ptr},
            t.size - allocSize, t.count - 1)
  }

  // -------------------------------------------------------------- invariant

  ghost function Sum(m: map<nat, nat>): nat
    decreases |m|
  {
    if m == map[] then 0
    else
      var k :| k in m;
      SizeWithout(m, k);
      m[k] + Sum(m - {k})
  }

  lemma {:induction false} SumWithout(m: map<nat, nat>, k: nat)
    requires k in m
    ensures Sum(m) == m[k] + Sum(m - {k})
    decreases |m|
  {
    var j :| j in m && Sum(m) == m[j] + Sum(m - {j});
    if j != k {
      SizeWithout(m, j);
      SizeWithout(m, k);
      SumWithout(m - {j}, k);
      SumWithout(m - {k}, j);
      assert m - {j} - {k} == m - {k} - {j};
    }
  }

  lemma SumWith(m: map<nat, nat>, k: nat, v: nat)
    requires k !in m
    ensures Sum(m[k := v]) == Sum(m) + v
  {
    SumWithout(m[k := v], k);
    assert m[k := v] - {k} == m;
  }

  /** The counters are the number of traced blocks and the sum of their sizes, and each
      traced block is live with the size it says. */
  ghost predicate Inv(t: Trace) {
    && Good(t.store)
    && (forall ptr :: ptr in t.traced ==> ptr in t.store.live && t.store.live[ptr] == t.traced[ptr])
    && t.size == Sum(t.traced)
    && t.count == |t.traced|
  }

  /** The cases of an allocation. */
  lemma MallocIs(t: Trace, sz: nat, answer: nat)
    requires sz < SIZE_T && Good(t.store) && Answers(t.store, answer)
    ensures var allocSize := Plus(HEADER, sz); var (store, ptr) := Allocated(t.store, allocSize, answer);
      if allocSize < sz then Malloc(t, sz, answer) == (t, Terminated)
      else if ptr == 0 then store == t.store && Malloc(t, sz, answer) == (t, NoMemory)
      else
        && allocSize == HEADER + sz
        && Malloc(t, sz, answer) == (Trace(store, t.traced[ptr := allocSize], t.size + allocSize, t.count + 1), Block(ptr))
  {
    hide Good, Allocated;
    AllocNew(t.store, Plus(HEADER, sz), answer);
  }

  /** A new block joins the traced ones. */
  lemma AddedInv(t: Trace, store: Store, ptr: nat, allocSize: nat)
    requires Inv(t) && Good(store) && ptr !in t.store.live && store.live == t.store.live[ptr := allocSize]
    ensures ptr !in t.traced && Inv(Trace(store, t.traced[ptr := allocSize], t.size + allocSize, t.count + 1))
  {
    hide Good;
    SumWith(t.traced, ptr, allocSize);
    SizeWith(t.traced, ptr, allocSize);
  }

  lemma MallocInv(t: Trace, sz: nat, answer: nat)
    requires Inv(t) && sz < SIZE_T && Answers(t.store, answer)
    ensures Inv(Malloc(t, sz, answer).0)
    ensures var (r, made) := Malloc(t, sz, answer);
      made.Block? ==>
        && made.ptr != 0 && made.ptr !in t.traced && made.ptr !in t.store.live
        && r.traced == t.traced[made.ptr := HEADER + sz]
        && made.ptr in r.store.blocks && r.store.blocks[made.ptr] >= HEADER + sz
    ensures !Malloc(t, sz, answer).1.Block? ==> Malloc(t, sz, answer).0 == t
  {
    var allocSize := Plus(HEADER, sz);
    assert Good(t.store);
    hide Good, Allocated, Malloc, Inv;
    AllocGood(t.store, allocSize, answer);
    AllocNew(t.store, allocSize, answer);
    MallocIs(t, sz, answer);
    var (store, ptr) := Allocated(t.store, allocSize, answer);
    if allocSize >= sz && ptr != 0 {
      AddedInv(t, store, ptr, allocSize);
    }
  }

  lemma AllocNew(s: Store, size: nat, answer: nat)
    requires Good(s) && Answers(s, answer)
    ensures var (r, ptr) := Allocated(s, size, answer);
      if ptr == 0 then r == s
      else ptr !in s.live && r.live == s.live[ptr := size] && ptr in r.blocks && r.blocks[ptr] >= size
  {
    if Kept(s, size) && s.lists[size] != [] {
      assert s.lists[size][0] in s.lists[size];
    }
  }

  lemma ReleaseInv(t: Trace, ptr: nat)
    requires Inv(t) && (ptr == 0 || ptr in t.traced)
    ensures Inv(Release(t, ptr))
  {
    if ptr != 0 {
      var allocSize := t.traced[ptr];
      FreeGood(t.store, ptr, allocSize);
      FreeDead(t.store, ptr, allocSize);
      hide Good, Freed;
      SumWithout(t.traced, ptr);
      SizeWithout(t.traced, ptr);
    }
  }

  lemma FreeDead(s: Store, ptr: nat, size: nat)
    requires ptr != 0
    ensures Freed(s, ptr, size).live == s.live - {ptr}
  {
  }

  // ---------------------------------------------------------------- promises

  datatype Call = Get(sz: nat, answer: nat) | Put(ptr: nat)

  predicate Allowed(t: Trace, c: Call) {
    match c
    case Get(sz, answer) => sz < SIZE_T && Answers(t.store, answer)
    case Put(ptr) => ptr == 0 || ptr in t.traced
  }

  function Do(t: Trace, c: Call): Trace
    requires Allowed(t, c)
  {
    match c
    case Get(sz, answer) => Malloc(t, sz, answer).0
    case Put(ptr) => Release(t, ptr)
  }

  predicate Legal(t: Trace, calls: seq<Call>)
    decreases |calls|
  {
    calls == [] || (Allowed(t, calls[0]) && Legal(Do(t, calls[0]), calls[1..]))
  }

  function After(t: Trace, calls: seq<Call>): Trace
    requires Legal(t, calls)
    decreases |calls|
  {
    if calls == [] then t else After(Do(t, calls[0]), calls[1..])
  }

  /** Whatever is allocated and freed through the trace, it reports exactly what is in
      use: the number of blocks and the sum of their sizes. */
  lemma {:induction false} ReportsWhatIsInUse(t: Trace, calls: seq<Call>)
    requires Inv(t) && Legal(t, calls)
    ensures var r := After(t, calls);
      Inv(r) && r.size == Sum(r.traced) && r.count == |r.traced|
    decreases |calls|
  {
    hide Malloc, Release, Good;
    if calls != [] {
      match calls[0] {
        case Get(sz, answer) => MallocInv(t, sz, answer);
        case Put(ptr) => ReleaseInv(t, ptr);
      }
      ReportsWhatIsInUse(Do(t, calls[0]), calls[1..]);
    }
  }

  /** Freeing a new block takes the report back to what it was. */
  lemma ReleaseUndoesMalloc(t: Trace, sz: nat, answer: nat)
    requires Inv(t) && sz < SIZE_T && Answers(t.store, answer) && Malloc(t, sz, answer).1.Block?
    ensures var (r, made) := Malloc(t, sz, answer); var back := Release(r, made.ptr);
      back.traced == t.traced && back.size == t.size && back.count == t.count
  {
    MallocInv(t, sz, answer);
    MallocIs(t, sz, answer);
    hide Good, Inv, Malloc, Allocated, Freed, Plus, Answers;
    var (r, made) := Malloc(t, sz, answer);
    assert r.traced - {made.ptr} == t.traced;
  }

  /** The program is terminated for exactly the sizes whose header no longer fits. */
  lemma TerminatedIff(t: Trace, sz: nat, answer: nat)
    requires sz < SIZE_T
    ensures Malloc(t, sz, answer).1.Terminated? <==> HEADER + sz >= SIZE_T
  {
    hide Allocated;
  }

  /** Each traced block starts with its size. */
  predicate Headed(traced: map<nat, nat>, word: map<nat, nat>) {
    forall ptr :: ptr in traced ==> ptr in word && word[ptr] == traced[ptr]
  }

  class CmemoryTrace {
    const fa: FastStore
    var size: int
    var count: int
    ghost var traced: map<nat, nat>

    ghost function View(): Trace
      reads this, fa
    {
      Trace(fa.view, traced, size, count)
    }

    ghost predicate Valid()
      reads this, fa, fa.heads, fa.counts, fa.limits
    {
      fa.Valid() && Inv(View()) && Headed(traced, fa.word)
    }

    constructor (fa: FastStore)
      requires fa.Valid()
      ensures Valid() && this.fa == fa && View() == Trace(old(fa.view), map[], 0, 0)
    {
      this.fa := fa;
      size, count, traced := 0, 0, map[];
    }

    method MallocNoThrow(sz: nat, answer: nat) returns (made: Result)
      requires Valid() && sz < SIZE_T && Answers(fa.view, answer)
      modifies this, fa, fa.heads, fa.counts
      ensures Valid() && (View(), made) == Malloc(old(View()), sz, answer)
    {
      ghost var was := View();
      hide Good, Inv, Allocated, Malloc, Headed, Answers, FastStore.Valid;
      MallocCases(was, sz, answer);
      var allocSize := Plus(HEADER, sz);
      hide Plus;
      if allocSize < sz {
        return Terminated;
      }
      var ptr := Obtain(allocSize, answer);
      made := if ptr == 0 then NoMemory else Block(ptr);
    }

    /** Allocates and, if that worked, counts. */
    method Obtain(allocSize: nat, answer: nat) returns (ptr: nat)
      requires fa.Valid() && Answers(fa.view, answer) && Headed(traced, fa.word) && traced.Keys <= fa.view.live.Keys
      requires var (store, p) := Allocated(fa.view, allocSize, answer); p == 0 || (p in store.live && p !in traced)
      modifies this, fa, fa.heads, fa.counts
      ensures fa.Valid() && Headed(traced, fa.word)
      ensures var (store, p) := Allocated(old(fa.view), allocSize, answer);
        ptr == p && View() ==
          if p == 0 then old(View()).(store := store)
          else Trace(store, old(traced)[p := allocSize], old(size) + allocSize, old(count) + 1)
    {
      ghost var word := fa.word;
      hide Good, Allocated, Headed, Agree, FastStore.Valid;
      StillHeaded(traced, fa.view, word);
      ptr := fa.Alloc(allocSize, answer);
      if ptr != 0 {
        AddBlock(ptr, allocSize);
      }
    }

    /** Writes the header and counts the block. */
    method AddBlock(ptr: nat, allocSize: nat)
      requires fa.Valid() && ptr in fa.view.live && ptr !in traced && Headed(traced, fa.word)
      modifies this, fa`word
      ensures fa.Valid() && Headed(traced, fa.word)
      ensures View() == Trace(fa.view, old(traced)[ptr := allocSize], old(size) + allocSize, old(count) + 1)
    {
      hide FastStore.Valid;
      fa.WriteWord(ptr, allocSize);
      traced := traced[ptr := allocSize];
      size := size + allocSize;
      count := count + 1;
    }

    method RemoveBlock(ptr: nat, allocSize: nat)
      modifies this
      ensures View() == Trace(fa.view, old(traced) - {ptr}, old(size) - allocSize, old(count) - 1)
    {
      traced := traced - {ptr};
      size := size - allocSize;
      count := count - 1;
    }

    /** Uncounts the block and frees it. */
    method GiveBack(ptr: nat, allocSize: nat)
      requires fa.Valid() && Headed(traced, fa.word) && ptr in fa.view.live && fa.view.live[ptr] == allocSize
      modifies this, fa, fa.heads, fa.counts
      ensures fa.Valid() && Headed(traced, fa.word)
      ensures View() == Trace(Freed(old(fa.view), ptr, allocSize), old(traced) - {ptr}, old(size) - allocSize, old(count) - 1)
    {
      hide Good, Freed, Headed, Agree, FastStore.Valid;
      ghost var was, word := traced, fa.word;
      RemoveBlock(ptr, allocSize);
      fa.Free(ptr, allocSize);
      HeadedWithout(was, word, fa.word, ptr);
    }

    method FreeSetNullptr(ptr: nat)
      requires Valid() && (ptr == 0 || ptr in traced)
      modifies this, fa, fa.heads, fa.counts
      ensures Valid() && View() == Release(old(View()), ptr)
    {
      ReleaseNull(View());
      hide Good, Inv, Freed, Release, Headed, FastStore.Valid;
      if ptr == 0 {
        return;
      }
      ReleaseCases(View(), fa.word, ptr);
      GiveBack(ptr, fa.word[ptr]);
    }
  }

  /** What the caller of `Malloc` learns from the addition and the allocation. */
  lemma MallocCases(t: Trace, sz: nat, answer: nat)
    requires Inv(t) && sz < SIZE_T && Answers(t.store, answer)
    ensures Inv(Malloc(t, sz, answer).0) && t.traced.Keys <= t.store.live.Keys
    ensures var allocSize := Plus(HEADER, sz); var (store, ptr) := Allocated(t.store, allocSize, answer);
      && (ptr == 0 || (ptr in store.live && ptr !in t.traced))
      && Malloc(t, sz, answer) ==
        if allocSize < sz then (t, Terminated)
        else if ptr == 0 then (t.(store := store), NoMemory)
        else (Trace(store, t.traced[ptr := allocSize], t.size + allocSize, t.count + 1), Block(ptr))
  {
    assert Good(t.store);
    hide Good, Inv, Allocated, Malloc, Plus, Answers;
    MallocInv(t, sz, answer);
    MallocIs(t, sz, answer);
    HeaderFits(t, sz, answer);
  }

  lemma ReleaseNull(t: Trace)
    ensures Release(t, 0) == t
  {
  }

  /** What the caller of `Release` learns from the header. */
  lemma ReleaseCases(t: Trace, word: map<nat, nat>, ptr: nat)
    requires Inv(t) && Headed(t.traced, word) && ptr != 0 && ptr in t.traced
    ensures ptr in word && ptr in t.store.live && t.store.live[ptr] == word[ptr] && Inv(Release(t, ptr))
    ensures Release(t, ptr) == Trace(Freed(t.store, ptr, word[ptr]), t.traced - {ptr}, t.size - word[ptr], t.count - 1)
  {
    HeaderSays(t, word, ptr);
    hide Inv, Headed, Freed, Release;
    ReleaseInv(t, ptr);
    ReleaseIs(t, ptr);
  }

  lemma ReleaseIs(t: Trace, ptr: nat)
    requires ptr != 0 && ptr in t.traced
    ensures var allocSize := t.traced[ptr];
      Release(t, ptr) == Trace(Freed(t.store, ptr, allocSize), t.traced - {ptr}, t.size - allocSize, t.count - 1)
  {
  }

  lemma HeaderSays(t: Trace, word: map<nat, nat>, ptr: nat)
    requires Inv(t) && Headed(t.traced, word) && ptr in t.traced
    ensures ptr in word && word[ptr] == t.traced[ptr] && ptr in t.store.live && t.store.live[ptr] == t.traced[ptr]
  {
  }

  lemma StillHeaded(traced: map<nat, nat>, store: Store, word: map<nat, nat>)
    requires Headed(traced, word) && traced.Keys <= store.live.Keys
    ensures forall later :: Agree(word, later, store.live.Keys) ==> Headed(traced, later)
  {
  }

  lemma HeadedWithout(traced: map<nat, nat>, word: map<nat, nat>, later: map<nat, nat>, ptr: nat)
    requires Headed(traced, word) && Agree(word, later, word.Keys - {ptr})
    ensures Headed(traced - {ptr}, later)
  {
  }

  lemma HeaderFits(t: Trace, sz: nat, answer: nat)
    requires Inv(t) && sz < SIZE_T && Answers(t.store, answer)
    ensures t.traced.Keys <= t.store.live.Keys
    ensures var (store, ptr) := Allocated(t.store, Plus(HEADER, sz), answer); ptr == 0 || (ptr in store.live && ptr !in t.traced)
  {
    AllocNew(t.store, Plus(HEADER, sz), answer);
  }
}
