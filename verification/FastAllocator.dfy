/** The free lists behind `operator new`: first what they hold, as values, then the
    global arrays with the lists threaded through the freed blocks themselves. A block
    is known by its address; address 0 is the null pointer. */
module FastAllocator {
  import opened Common

  const SLOTS: nat := 4096
  const LINK_SIZE: nat := 8

  /** The lists of freed blocks for each size, how long each may get, the blocks handed
      out with the size asked for, and every block obtained from `malloc` and not
      given back, with the size asked of `malloc`. */
  datatype Store = Store(lists: seq<seq<nat>>, limits: seq<nat>, live: map<nat, nat>, blocks: map<nat, nat>)

  /** Blocks of this size are kept for reuse. */
  predicate Kept(s: Store, size: nat) {
    size < |s.limits| && s.limits[size] > 0
  }

  /** A kept block must have room for the link. */
  function RoomFor(s: Store, size: nat): nat {
    if Kept(s, size) && size < LINK_SIZE then LINK_SIZE else size
  }

  /** `__alloc`; `answer` is what `malloc` returns if it is called. */
  function Allocated(s: Store, size: nat, answer: nat): (Store, nat) {
    if Kept(s, size) && size < |s.lists| && s.lists[size] != [] then
      var take := s.lists[size][0];
      (s.(lists := s.lists[size := s.lists[size][1..]], live := s.live[take := size]), take)
    else if answer == 0 then (s, 0)
    else (s.(live := s.live[answer := size], blocks := s.blocks[answer := RoomFor(s, size)]), answer)
  }

  /** `__free`. */
  function Freed(s: Store, ptr: nat, size: nat): Store {
    if ptr == 0 then s
    else if Kept(s, size) && size < |s.lists| && |s.lists[size]| < s.limits[size] then
      s.(lists := s.lists[size := [ptr] + s.lists[size]], live := s.live - {ptr})
    else s.(live := s.live - {ptr}, blocks := s.blocks - {ptr})
  }

  // -------------------------------------------------------------- invariant

  function Total(lists: seq<seq<nat>>): nat
    decreases |lists|
  {
    if lists == [] then 0 else Total(lists[..|lists| - 1]) + |lists[|lists| - 1]|
  }

  /** A freed block in the list of `size`: obtained from `malloc`, large enough for any
      use at this size and for the link, and not handed out. */
  predicate Idle(s: Store, size: nat, ptr: nat) {
    ptr != 0 && ptr in s.blocks && s.blocks[ptr] >= size && s.blocks[ptr] >= LINK_SIZE && ptr !in s.live
  }

  ghost predicate ListsOk(s: Store) {
    && |s.lists| == |s.limits| == SLOTS
    && (forall k :: 0 <= k < SLOTS ==> |s.lists[k]| <= s.limits[k] && Distinct(s.lists[k]))
    && (forall k, ptr :: 0 <= k < SLOTS && ptr in s.lists[k] ==> Idle(s, k, ptr))
  }

  ghost predicate Apart(s: Store) {
    forall j, k, ptr :: 0 <= j < |s.lists| && 0 <= k < |s.lists| && ptr in s.lists[j] && ptr in s.lists[k] ==> j == k
  }

  /** Blocks in use. */
  ghost predicate LiveOk(s: Store) {
    forall ptr :: ptr in s.live ==> ptr != 0 && ptr in s.blocks && s.blocks[ptr] >= RoomFor(s, s.live[ptr])
  }

  /** No block is lost: what was obtained is handed out or in a list. */
  ghost predicate Accounted(s: Store) {
    |s.blocks| == |s.live| + Total(s.lists)
  }

  ghost predicate Good(s: Store) {
    ListsOk(s) && Apart(s) && LiveOk(s) && Accounted(s)
  }

  /** `malloc` fails or returns a block that is not in use. */
  predicate Answers(s: Store, answer: nat) {
    answer == 0 || answer !in s.blocks
  }

  lemma {:induction false} TotalUpdate(lists: seq<seq<nat>>, k: nat, list: seq<nat>)
    requires k < |lists|
    ensures Total(lists[k := list]) + |lists[k]| == Total(lists) + |list|
    decreases |lists|
  {
    var last := |lists| - 1;
    if k < last {
      TotalUpdate(lists[..last], k, list);
      assert lists[k := list][..last] == lists[..last][k := list];
    } else {
      assert lists[k := list][..last] == lists[..last];
    }
  }

  lemma SizeWith(m: map<nat, nat>, k: nat, v: nat)
    requires k !in m
    ensures |m[k := v]| == |m| + 1
  {
    assert m[k := v].Keys == m.Keys + {k};
  }

  lemma SizeWithout(m: map<nat, nat>, k: nat)
    requires k in m
    ensures |m - {k}| == |m| - 1
  {
    assert (m - {k}).Keys == m.Keys - {k};
  }

  lemma TakenLists(s: Store, size: nat)
    requires ListsOk(s) && Apart(s) && LiveOk(s) && Kept(s, size) && s.lists[size] != []
    ensures var r := Allocated(s, size, 0).0; ListsOk(r) && Apart(r) && LiveOk(r)
    ensures s.lists[size][0] !in s.live && s.lists[size][0] != 0
  {
    var r := Allocated(s, size, 0).0;
    var take, rest := s.lists[size][0], s.lists[size][1..];
    assert take in s.lists[size] && Idle(s, size, take);
    assert take !in rest;
    forall k, ptr | 0 <= k < SLOTS && ptr in r.lists[k] ensures Idle(r, k, ptr) {
      assert ptr in s.lists[k];
    }
  }

  lemma FromMalloc(s: Store, size: nat, answer: nat)
    requires ListsOk(s) && Apart(s) && LiveOk(s) && answer != 0 && answer !in s.blocks
    ensures var r := s.(live := s.live[answer := size], blocks := s.blocks[answer := RoomFor(s, size)]);
      ListsOk(r) && Apart(r) && LiveOk(r)
    ensures answer !in s.live
  {
    var r := s.(live := s.live[answer := size], blocks := s.blocks[answer := RoomFor(s, size)]);
    forall k, ptr | 0 <= k < SLOTS && ptr in r.lists[k] ensures Idle(r, k, ptr) {
      assert Idle(s, k, ptr);
    }
  }

  lemma AllocGood(s: Store, size: nat, answer: nat)
    requires Good(s) && Answers(s, answer)
    ensures Good(Allocated(s, size, answer).0)
  {
    hide Total, Apart, LiveOk;
    if Kept(s, size) && s.lists[size] != [] {
      TakenLists(s, size);
      hide ListsOk;
      TotalUpdate(s.lists, size, s.lists[size][1..]);
      SizeWith(s.live, s.lists[size][0], size);
    } else if answer != 0 {
      FromMalloc(s, size, answer);
      hide ListsOk;
      SizeWith(s.live, answer, size);
      SizeWith(s.blocks, answer, RoomFor(s, size));
    }
  }

  lemma FreeGood(s: Store, ptr: nat, size: nat)
    requires Good(s) && (ptr == 0 || (ptr in s.live && s.live[ptr] == size))
    ensures Good(Freed(s, ptr, size))
  {
    hide Total, Apart;
    if ptr != 0 {
      assert |s.lists| == |s.limits| && ptr in s.blocks;
      SizeWithout(s.live, ptr);
      if Kept(s, size) && |s.lists[size]| < s.limits[size] {
        FreedList(s, ptr, size);
        hide ListsOk;
        TotalUpdate(s.lists, size, [ptr] + s.lists[size]);
      } else {
        GivenBack(s, ptr);
        hide ListsOk;
        SizeWithout(s.blocks, ptr);
      }
    }
  }

  lemma GivenBack(s: Store, ptr: nat)
    requires ListsOk(s) && Apart(s) && LiveOk(s) && ptr in s.live
    ensures var r := s.(live := s.live - {ptr}, blocks := s.blocks - {ptr}); ListsOk(r) && Apart(r) && LiveOk(r)
  {
    var r := s.(live := s.live - {ptr}, blocks := s.blocks - {ptr});
    forall k, p | 0 <= k < SLOTS && p in r.lists[k] ensures Idle(r, k, p) {
      assert Idle(s, k, p);
    }
  }

  lemma FreedList(s: Store, ptr: nat, size: nat)
    requires ListsOk(s) && Apart(s) && LiveOk(s) && ptr in s.live && s.live[ptr] == size
    requires Kept(s, size) && |s.lists[size]| < s.limits[size]
    ensures var r := Freed(s, ptr, size); ListsOk(r) && Apart(r) && LiveOk(r)
  {
    var r := Freed(s, ptr, size);
    forall k | 0 <= k < SLOTS ensures ptr !in s.lists[k] {}
    forall k, p | 0 <= k < SLOTS && p in r.lists[k] ensures Idle(r, k, p) {
      if p != ptr { assert p in s.lists[k]; }
    }
  }

  // ---------------------------------------------------------------- promises

  datatype Call = NewBlock(size: nat, answer: nat) | OldBlock(ptr: nat)

  /** Callers free only what they hold, and say its size. */
  predicate Allowed(s: Store, c: Call) {
    match c
    case NewBlock(_, answer) => Answers(s, answer)
    case OldBlock(ptr) => ptr == 0 || ptr in s.live
  }

  function Do(s: Store, c: Call): Store {
    match c
    case NewBlock(size, answer) => Allocated(s, size, answer).0
    case OldBlock(ptr) => Freed(s, ptr, if ptr in s.live then s.live[ptr] else 0)
  }

  predicate Legal(s: Store, calls: seq<Call>)
    decreases |calls|
  {
    calls == [] || (Allowed(s, calls[0]) && Legal(Do(s, calls[0]), calls[1..]))
  }

  function After(s: Store, calls: seq<Call>): Store
    decreases |calls|
  {
    if calls == [] then s else After(Do(s, calls[0]), calls[1..])
  }

  lemma {:induction false} RunGood(s: Store, calls: seq<Call>)
    requires Good(s) && Legal(s, calls)
    ensures Good(After(s, calls))
    decreases |calls|
  {
    hide Good, Allocated, Freed;
    if calls != [] {
      match calls[0] {
        case NewBlock(size, answer) => AllocGood(s, size, answer);
        case OldBlock(ptr) => FreeGood(s, ptr, if ptr in s.live then s.live[ptr] else 0);
      }
      RunGood(Do(s, calls[0]), calls[1..]);
    }
  }

  function Empty(limits: seq<nat>): Store {
    Store(seq(|limits|, i => []), limits, map[], map[])
  }

  lemma {:induction false} TotalEmpty(n: nat)
    ensures Total(seq(n, i => [])) == 0
  {
    if n > 0 {
      TotalEmpty(n - 1);
      assert seq<seq<nat>>(n, i => [])[..n - 1] == seq<seq<nat>>(n - 1, i => []);
    }
  }

  lemma EmptyGood(limits: seq<nat>)
    requires |limits| == SLOTS
    ensures Good(Empty(limits))
  {
    TotalEmpty(SLOTS);
  }

  /** Over every run of calls: a block handed out is not in use, it is large enough,
      and no list and no other caller holds it afterwards. */
  lemma AllocIsNew(limits: seq<nat>, calls: seq<Call>, size: nat, answer: nat)
    requires |limits| == SLOTS && Legal(Empty(limits), calls) && Answers(After(Empty(limits), calls), answer)
    ensures var s := After(Empty(limits), calls); var (r, ptr) := Allocated(s, size, answer);
      ptr != 0 ==>
        && ptr !in s.live && r.live == s.live[ptr := size]
        && ptr in r.blocks && r.blocks[ptr] >= size
        && forall k :: 0 <= k < |r.lists| ==> ptr !in r.lists[k]
  {
    EmptyGood(limits);
    RunGood(Empty(limits), calls);
    var s := After(Empty(limits), calls);
    AllocGood(s, size, answer);
    hide After, Legal, Empty;
    if Kept(s, size) && s.lists[size] != [] {
      assert s.lists[size][0] in s.lists[size];
    }
  }

  /** Nothing leaks and nothing is given back twice: the blocks obtained and not given
      back are the live ones and the kept ones, no list is longer than its limit, and
      the lists of different sizes share nothing. */
  lemma NothingLeaks(limits: seq<nat>, calls: seq<Call>)
    requires |limits| == SLOTS && Legal(Empty(limits), calls)
    ensures var s := After(Empty(limits), calls);
      && |s.blocks| == |s.live| + Total(s.lists)
      && |s.lists| == |s.limits| && Apart(s)
      && forall k :: 0 <= k < |s.lists| ==> |s.lists[k]| <= s.limits[k] && Distinct(s.lists[k])
  {
    EmptyGood(limits);
    RunGood(Empty(limits), calls);
  }

  /** Last in, first out: allocating the size just freed undoes a kept free. */
  lemma AllocUndoesFree(s: Store, ptr: nat, answer: nat)
    requires Good(s) && ptr in s.live
    requires var size := s.live[ptr]; Kept(s, size) && |s.lists[size]| < s.limits[size]
    ensures Allocated(Freed(s, ptr, s.live[ptr]), s.live[ptr], answer) == (s, ptr)
  {
    var size := s.live[ptr];
    var f := Freed(s, ptr, size);
    assert f.lists[size][1..] == s.lists[size];
    assert f.lists[size := s.lists[size]] == s.lists;
    assert f.live[ptr := size] == s.live;
  }

  // ----------------------------------------------------- lists through memory

  /** From `head` the links lead through exactly these blocks to the null pointer. */
  predicate Linked(head: nat, list: seq<nat>, word: map<nat, nat>)
    decreases |list|
  {
    if list == [] then head == 0
    else head == list[0] && head in word && Linked(word[head], list[1..], word)
  }

  /** The words of these blocks are the same. */
  predicate Agree(word: map<nat, nat>, later: map<nat, nat>, blocks: set<nat>) {
    forall p :: p in blocks && p in word ==> p in later && later[p] == word[p]
  }

  /** A write to a word outside the list does not touch it. */
  lemma {:induction false} LinkedElsewhere(head: nat, list: seq<nat>, word: map<nat, nat>, at: nat, v: nat)
    requires Linked(head, list, word) && at !in list
    ensures Linked(head, list, word[at := v])
    decreases |list|
  {
    if list != [] {
      LinkedElsewhere(word[head], list[1..], word, at, v);
    }
  }

  lemma AllElsewhere(heads: seq<nat>, s: Store, word: map<nat, nat>, at: nat, v: nat)
    requires |heads| == |s.lists| && forall k :: 0 <= k < |heads| ==> Linked(heads[k], s.lists[k], word)
    requires forall k :: 0 <= k < |s.lists| ==> at !in s.lists[k]
    ensures forall k :: 0 <= k < |heads| ==> Linked(heads[k], s.lists[k], word[at := v])
  {
    forall k | 0 <= k < |heads| ensures Linked(heads[k], s.lists[k], word[at := v]) {
      LinkedElsewhere(heads[k], s.lists[k], word, at, v);
    }
  }

  /** The limit for a size: the last setting for it wins, and none means 0. */
  function Limit(settings: seq<(nat, nat)>, size: nat): nat
    decreases |settings|
  {
    if settings == [] then 0
    else
      var last := settings[|settings| - 1];
      if last.0 == size then last.1 else Limit(settings[..|settings| - 1], size)
  }

  /** The settings say this limit: the last one that names the size, or none does and
      the limit is 0. */
  ghost predicate Says(settings: seq<(nat, nat)>, size: nat, limit: nat) {
    || (limit == 0 && forall i :: 0 <= i < |settings| ==> settings[i].0 != size)
    || exists i :: 0 <= i < |settings| && settings[i] == (size, limit) && forall j :: i < j < |settings| ==> settings[j].0 != size
  }

  lemma SaysMore(settings: seq<(nat, nat)>, last: (nat, nat), size: nat, limit: nat)
    requires last.0 != size
    ensures Says(settings + [last], size, limit) <==> Says(settings, size, limit)
  {
    var all := settings + [last];
    assert all[|settings|] == last;
    forall i | 0 <= i < |settings| ensures all[i] == settings[i] {}
    if i :| 0 <= i < |settings| && settings[i] == (size, limit) && forall j :: i < j < |settings| ==> settings[j].0 != size {
      assert all[i] == (size, limit);
    }
  }

  lemma {:induction false} LimitIs(settings: seq<(nat, nat)>, size: nat, limit: nat)
    ensures Limit(settings, size) == limit <==> Says(settings, size, limit)
    decreases |settings|
  {
    if settings != [] {
      var front, last := settings[..|settings| - 1], settings[|settings| - 1];
      if last.0 == size {
        assert settings[|settings| - 1] == (size, last.1);
      } else {
        LimitIs(front, size, limit);
        SaysMore(front, last, size, limit);
        assert settings == front + [last];
      }
    }
  }

  class FastStore {
    const heads: array<nat>
    const counts: array<nat>
    const limits: array<nat>
    // The first word of each block.
    var word: map<nat, nat>
    ghost var view: Store

    ghost predicate Valid()
      reads this, heads, counts, limits
    {
      && heads.Length == counts.Length == limits.Length == SLOTS
      && heads != counts && heads != limits && counts != limits
      && Good(view) && view.limits == limits[..]
      && (forall k :: 0 <= k < SLOTS ==> counts[k] == |view.lists[k]|)
      && (forall k :: 0 <= k < SLOTS ==> Linked(heads[k], view.lists[k], word))
    }

    constructor (settings: seq<(nat, nat)>)
      ensures Valid() && fresh(heads) && fresh(counts) && fresh(limits)
      ensures view == Empty(seq(SLOTS, (i: nat) => Limit(settings, i)))
    {
      heads := new nat[SLOTS](i => 0);
      counts := new nat[SLOTS](i => 0);
      limits := new nat[SLOTS](i => 0);
      word := map[];
      view := Empty(seq(SLOTS, (i: nat) => Limit(settings, i)));
      new;
      EmptyGood(view.limits);
      var n := 0;
      while n < |settings|
        invariant 0 <= n <= |settings|
        invariant limits[..] == seq(SLOTS, (i: nat) => Limit(settings[..n], i))
        invariant forall k :: 0 <= k < SLOTS ==> heads[k] == 0 && counts[k] == 0
        invariant word == map[] && view == Empty(seq(SLOTS, (i: nat) => Limit(settings, i)))
        modifies limits
      {
        assert settings[..n + 1][..n] == settings[..n];
        if settings[n].0 < SLOTS {
          limits[settings[n].0] := settings[n].1;
        }
        n := n + 1;
      }
      assert settings[..n] == settings;
    }

    method TakeFront(size: nat) returns (take: nat)
      requires Valid() && size < SLOTS && view.lists[size] != [] && limits[size] > 0
      modifies this, heads, counts
      ensures Valid() && word == old(word)
      ensures (view, take) == Allocated(old(view), size, 0)
    {
      AllocGood(view, size, 0);
      hide Good;
      take := heads[size];
      ghost var r := Allocated(view, size, 0).0;
      assert take == view.lists[size][0];
      heads[size] := word[take];
      counts[size] := counts[size] - 1;
      view := r;
    }

    method Alloc(size: nat, answer: nat) returns (ptr: nat)
      requires Valid() && Answers(view, answer)
      modifies this, heads, counts
      ensures Valid()
      ensures (view, ptr) == Allocated(old(view), size, answer)
      ensures Agree(old(word), word, old(view).live.Keys)
    {
      if size >= SLOTS || limits[size] == 0 {
        ptr := Malloc(size, size, answer);
        return;
      }
      NullIffEmpty(view, size, heads[size], word);
      if heads[size] != 0 {
        ptr := TakeFront(size);
        return;
      }
      ptr := Malloc(size, if size < LINK_SIZE then LINK_SIZE else size, answer);
    }

    /** A block straight from `malloc`; its first word may hold anything. */
    method Malloc(size: nat, room: nat, answer: nat) returns (ptr: nat)
      requires Valid() && Answers(view, answer) && room == RoomFor(view, size)
      requires Kept(view, size) ==> view.lists[size] == []
      modifies this`view
      ensures Valid() && (view, ptr) == Allocated(old(view), size, answer)
    {
      AllocGood(view, size, answer);
      ptr := answer;
      view := Allocated(view, size, answer).0;
    }

    method Free(ptr: nat, size: nat)
      requires Valid() && (ptr == 0 || (ptr in view.live && view.live[ptr] == size))
      modifies this, heads, counts
      ensures Valid() && view == Freed(old(view), ptr, size)
      ensures Agree(old(word), word, old(word).Keys - {ptr})
    {
      if ptr == 0 {
        return;
      }
      FreeGood(view, ptr, size);
      if size >= SLOTS || limits[size] == 0 {
        view := Freed(view, ptr, size);
        return;
      }
      if counts[size] < limits[size] {
        PutFront(ptr, size);
      } else {
        view := Freed(view, ptr, size);
      }
    }

    method PutFront(ptr: nat, size: nat)
      requires Valid() && ptr != 0 && ptr in view.live && view.live[ptr] == size
      requires size < SLOTS && counts[size] < limits[size] && Good(Freed(view, ptr, size))
      modifies this, heads, counts
      ensures Valid() && view == Freed(old(view), ptr, size)
      ensures word == old(word)[ptr := old(heads[size])]
    {
      NotListed(view, ptr);
      AllElsewhere(heads[..], view, word, ptr, heads[size]);
      hide Good;
      ghost var r := Freed(view, ptr, size);
      assert r.lists[size][1..] == view.lists[size];
      word := word[ptr := heads[size]];
      heads[size] := ptr;
      counts[size] := counts[size] + 1;
      view := r;
    }

    /** The owner of a block writes to its start; no list notices. */
    method WriteWord(ptr: nat, v: nat)
      requires Valid() && ptr in view.live
      modifies this`word
      ensures Valid() && word == old(word)[ptr := v]
    {
      NotListed(view, ptr);
      AllElsewhere(heads[..], view, word, ptr, v);
      word := word[ptr := v];
    }
  }

  lemma NotListed(s: Store, ptr: nat)
    requires Good(s) && ptr in s.live
    ensures forall k :: 0 <= k < |s.lists| ==> ptr !in s.lists[k]
  {
  }

  lemma NullIffEmpty(s: Store, size: nat, head: nat, word: map<nat, nat>)
    requires Good(s) && size < |s.lists| && Linked(head, s.lists[size], word)
    ensures head == 0 <==> s.lists[size] == []
  {
    if s.lists[size] != [] {
      assert s.lists[size][0] in s.lists[size];
    }
  }
}
