/** The arena allocator behind token creation. An arena hands out aligned
    slices of a current chunk; when the current chunk is too full it reuses
    the first old chunk with room, or maps a new chunk sized by doubling from
    64 KiB up to 2 MiB. A chunk is a (size, used, created-at) record; the
    mapped memory itself, the page size (a positive parameter) and the clock
    (a `now` parameter) are outside the model. Old chunks are kept head
    first, as the source's singly linked list keeps them. */
module ArenaAllocator {
  import opened CTypes

  const DEFAULT_CHUNK_SIZE: nat := 64 * 1024
  const MAX_CHUNK_SIZE: nat := 2 * 1024 * 1024
  const ALIGNMENT: nat := 8
  const MAX_ALLOC_SIZE: nat := MAX_CHUNK_SIZE / 2
  const INITIAL_CHUNK_COUNT: int := 0
  const INITIAL_TOTAL_USED: nat := 0

  /** A mapped chunk: its page-rounded size, the bytes handed out from its
      start, and the time it was created. */
  datatype Chunk = Chunk(size: nat, used: nat, createdAt: int)

  /** The bookkeeping fields of an arena, as one value. The chunk count is a
      `size_t` that the allocator decrements; it is an `int` here so that a
      decrement below zero would be visible rather than wrap. */
  datatype ArenaState = ArenaState(
    current: Option<Chunk>,
    oldChunks: seq<Chunk>,
    totalUsed: nat,
    totalAllocated: nat,
    chunkCount: int,
    lastCleanup: int)

  // ---------------------------------------------------------------------
  // Size arithmetic

  /** `arena_align_size`: the size rounded up to a multiple of 8. */
  function AlignSize(size: nat): (r: nat)
    ensures r % ALIGNMENT == 0
    ensures size <= r < size + ALIGNMENT
  {
    ((size + ALIGNMENT - 1) / ALIGNMENT) * ALIGNMENT
  }

  /** The aligned size is the least multiple of 8 that holds the request,
      and aligning twice is aligning once. */
  lemma AlignSizeLeast(size: nat, m: nat)
    requires m % ALIGNMENT == 0 && size <= m
    ensures AlignSize(size) <= m
    ensures AlignSize(AlignSize(size)) == AlignSize(size)
  {
  }

  /** The chunk size chosen for a request: the smallest of 64 KiB, 128 KiB,
      ..., 2 MiB that holds it, or 2 MiB when none does. */
  function NewChunkSize(requested: nat): (r: nat)
    ensures exists k :: 0 <= k <= 5 && r == DEFAULT_CHUNK_SIZE * Pow2(k)
    ensures DEFAULT_CHUNK_SIZE <= r <= MAX_CHUNK_SIZE
    ensures requested <= DEFAULT_CHUNK_SIZE ==> r == DEFAULT_CHUNK_SIZE
    ensures requested <= MAX_CHUNK_SIZE ==> requested <= r
    ensures r > DEFAULT_CHUNK_SIZE ==> r / 2 < requested
  {
    assert Pow2(1) == 2 && Pow2(2) == 4 && Pow2(3) == 8 && Pow2(4) == 16 && Pow2(5) == 32;
    if requested <= DEFAULT_CHUNK_SIZE then DEFAULT_CHUNK_SIZE
    else if requested <= 2 * DEFAULT_CHUNK_SIZE then 2 * DEFAULT_CHUNK_SIZE
    else if requested <= 4 * DEFAULT_CHUNK_SIZE then 4 * DEFAULT_CHUNK_SIZE
    else if requested <= 8 * DEFAULT_CHUNK_SIZE then 8 * DEFAULT_CHUNK_SIZE
    else if requested <= 16 * DEFAULT_CHUNK_SIZE then 16 * DEFAULT_CHUNK_SIZE
    else MAX_CHUNK_SIZE
  }

  /** `arena_calculate_new_chunk_size`: doubling from the default size. */
  method CalculateNewChunkSize(requested: nat) returns (r: nat)
    ensures r == NewChunkSize(requested)
  {
    if requested <= DEFAULT_CHUNK_SIZE {
      return DEFAULT_CHUNK_SIZE;
    }
    var size := DEFAULT_CHUNK_SIZE;
    while size < requested && size < MAX_CHUNK_SIZE
      invariant NewChunkSize(size) == size && size / 2 < requested
      decreases MAX_CHUNK_SIZE - size
    {
      if size > MAX_CHUNK_SIZE / 2 {
        return MAX_CHUNK_SIZE;
      }
      size := size * 2;
    }
    if size > MAX_CHUNK_SIZE {
      r := MAX_CHUNK_SIZE;
    } else {
      r := size;
    }
  }

  /** A multiple of `p` leaves no remainder: the remainder of q * p is
      (q - q * p / p) * p, a multiple of p below p, hence zero. */
  lemma MultipleHasNoRemainder(q: nat, p: nat)
    requires p > 0
    ensures (q * p) % p == 0
  {
    var a := q * p;
    var k := q - a / p;
    assert k * p == a % p by {
      assert a == (a / p) * p + a % p;
      assert k * p == q * p - (a / p) * p;
    }
  }

  /** The size of a chunk as mapped: rounded up to whole pages, that is the
      least multiple of the page size that holds `size` bytes. */
  function PageRound(size: nat, pageSize: nat): (r: nat)
    requires pageSize > 0
    ensures size <= r < size + pageSize
    ensures r % pageSize == 0
  {
    MultipleHasNoRemainder((size + pageSize - 1) / pageSize, pageSize);
    ((size + pageSize - 1) / pageSize) * pageSize
  }

  /** `arena_chunk_create`: no chunk for size 0 or when the mapping fails;
      otherwise a fresh, unused, page-rounded chunk stamped with `now`. */
  function CreateChunk(size: nat, pageSize: nat, now: int, mapped: bool): (c: Option<Chunk>)
    requires pageSize > 0
    ensures c.Some? <==> size > 0 && mapped
    ensures c.Some? ==> c.value.used == 0 && c.value.createdAt == now && size <= c.value.size
    ensures c.Some? ==> c.value.size == PageRound(size, pageSize)
  {
    if size == 0 || !mapped then None else Some(Chunk(PageRound(size, pageSize), 0, now))
  }

  // ---------------------------------------------------------------------
  // Chunk lists

  /** Every chunk has handed out no more than its size. */
  predicate WithinSize(cs: seq<Chunk>) {
    forall i :: 0 <= i < |cs| ==> cs[i].used <= cs[i].size
  }

  lemma WithinSizeConcat(a: seq<Chunk>, b: seq<Chunk>)
    ensures WithinSize(a + b) <==> WithinSize(a) && WithinSize(b)
  {
    if WithinSize(a) && WithinSize(b) {
      forall i | 0 <= i < |a + b|
        ensures (a + b)[i].used <= (a + b)[i].size
      {
        if i >= |a| {
          assert (a + b)[i] == b[i - |a|];
        }
      }
    }
    if WithinSize(a + b) {
      forall i | 0 <= i < |a|
        ensures a[i].used <= a[i].size
      {
        assert (a + b)[i] == a[i];
      }
      forall i | 0 <= i < |b|
        ensures b[i].used <= b[i].size
      {
        assert (a + b)[|a| + i] == b[i];
      }
    }
  }

  function SumUsed(cs: seq<Chunk>): nat {
    if cs == [] then 0 else cs[0].used + SumUsed(cs[1..])
  }

  function SumSizes(cs: seq<Chunk>): nat {
    if cs == [] then 0 else cs[0].size + SumSizes(cs[1..])
  }

  lemma {:induction false} SumsAppend(a: seq<Chunk>, b: seq<Chunk>)
    ensures SumUsed(a + b) == SumUsed(a) + SumUsed(b)
    ensures SumSizes(a + b) == SumSizes(a) + SumSizes(b)
  {
    if a == [] {
      assert a + b == b;
    } else {
      SumsAppend(a[1..], b);
      assert (a + b)[1..] == a[1..] + b;
    }
  }

  /** The list with its i-th chunk unlinked. */
  function RemoveAt(cs: seq<Chunk>, i: nat): (r: seq<Chunk>)
    requires i < |cs|
    ensures |r| == |cs| - 1
    ensures SumUsed(r) + cs[i].used == SumUsed(cs) && SumSizes(r) + cs[i].size == SumSizes(cs)
    ensures WithinSize(cs) ==> WithinSize(r)
  {
    assert cs == cs[..i] + [cs[i]] + cs[i + 1..];
    SumsAppend(cs[..i], [cs[i]]);
    SumsAppend(cs[..i] + [cs[i]], cs[i + 1..]);
    SumsAppend(cs[..i], cs[i + 1..]);
    cs[..i] + cs[i + 1..]
  }

  /** The first chunk of the list with at least `a` bytes free. */
  function FirstFit(cs: seq<Chunk>, a: nat): (r: Option<nat>)
    ensures r.Some? ==> r.value < |cs| && cs[r.value].size - cs[r.value].used >= a
    ensures r.Some? ==> forall j :: 0 <= j < r.value ==> cs[j].size - cs[j].used < a
    ensures r.None? ==> forall j :: 0 <= j < |cs| ==> cs[j].size - cs[j].used < a
  {
    if cs == [] then None
    else if cs[0].size - cs[0].used >= a then Some(0)
    else match FirstFit(cs[1..], a)
      case None => None
      case Some(i) => Some(i + 1)
  }

  /** The search loop of `arena_alloc` over the old chunks. */
  method FindReusable(cs: seq<Chunk>, a: nat) returns (r: Option<nat>)
    ensures r == FirstFit(cs, a)
  {
    var i := 0;
    while i < |cs|
      invariant i <= |cs|
      invariant forall j :: 0 <= j < i ==> cs[j].size - cs[j].used < a
    {
      if cs[i].size - cs[i].used >= a {
        FirstFitIsFirst(cs, a, i);
        return Some(i);
      }
      i := i + 1;
    }
    FirstFitIsFirst(cs, a, |cs|);
    r := None;
  }

  /** FirstFit is determined by its contract: the first index with room, if any. */
  lemma {:induction false} FirstFitIsFirst(cs: seq<Chunk>, a: nat, i: nat)
    requires i <= |cs|
    requires forall j :: 0 <= j < i ==> cs[j].size - cs[j].used < a
    requires i < |cs| ==> cs[i].size - cs[i].used >= a
    ensures FirstFit(cs, a) == if i < |cs| then Some(i) else None
  {
    if cs != [] && i > 0 {
      FirstFitIsFirst(cs[1..], a, i - 1);
    }
  }

  /** The chunks that survive cleanup: those at most `maxAge` old, in order. */
  function Young(cs: seq<Chunk>, now: int, maxAge: int): seq<Chunk> {
    if cs == [] then []
    else
      var last := cs[|cs| - 1];
      Young(cs[..|cs| - 1], now, maxAge) + (if now - last.createdAt > maxAge then [] else [last])
  }

  /** Cleanup removes exactly the chunks older than `maxAge` and keeps the
      others, in their order (Young is a filter). */
  lemma {:induction false} YoungExactly(cs: seq<Chunk>, now: int, maxAge: int)
    ensures forall c :: c in Young(cs, now, maxAge) <==> c in cs && now - c.createdAt <= maxAge
    ensures (forall i :: 0 <= i < |cs| ==> now - cs[i].createdAt <= maxAge) ==> Young(cs, now, maxAge) == cs
  {
    if cs != [] {
      var init, last := cs[..|cs| - 1], cs[|cs| - 1];
      YoungExactly(init, now, maxAge);
      assert cs == init + [last];
    }
  }

  /** Cleanup never adds chunks, used bytes or size, and keeps chunks within size. */
  lemma {:induction false} YoungShrinks(cs: seq<Chunk>, now: int, maxAge: int)
    ensures |Young(cs, now, maxAge)| <= |cs|
    ensures SumUsed(Young(cs, now, maxAge)) <= SumUsed(cs)
    ensures SumSizes(Young(cs, now, maxAge)) <= SumSizes(cs)
    ensures WithinSize(cs) ==> WithinSize(Young(cs, now, maxAge))
  {
    if cs != [] {
      var init, last := cs[..|cs| - 1], cs[|cs| - 1];
      YoungShrinks(init, now, maxAge);
      assert cs == init + [last];
      var tail := if now - last.createdAt > maxAge then [] else [last];
      SumsAppend(Young(init, now, maxAge), tail);
      SumsAppend(init, [last]);
      WithinSizeConcat(init, [last]);
      WithinSizeConcat(Young(init, now, maxAge), tail);
    }
  }

  // ---------------------------------------------------------------------
  // Arena states and their operations

  /** The chunks an arena holds: the current one first, then the old ones. */
  function Held(s: ArenaState): seq<Chunk> {
    (if s.current.Some? then [s.current.value] else []) + s.oldChunks
  }

  /** The arena's bookkeeping is consistent: `chunk_count` counts the held
      chunks, no chunk is over-used, `total_used` covers the bytes handed out
      from held chunks, and `total_allocated` covers their sizes. */
  predicate ValidState(s: ArenaState) {
    s.chunkCount == |Held(s)| &&
    WithinSize(Held(s)) &&
    SumUsed(Held(s)) <= s.totalUsed &&
    SumSizes(Held(s)) <= s.totalAllocated
  }

  /** The old-chunk list after the current chunk is retired: pushed at the
      head if it has handed out anything; an unused one is destroyed. */
  function Retire(current: Option<Chunk>, olds: seq<Chunk>): seq<Chunk> {
    if current.Some? && current.value.used > 0 then [current.value] + olds else olds
  }

  /** 1 when retiring destroys the (unused) current chunk. */
  function Destroyed(current: Option<Chunk>): nat {
    if current.Some? && current.value.used == 0 then 1 else 0
  }

  datatype AllocOutcome = AllocOutcome(ptr: Option<nat>, after: ArenaState)

  /** The bookkeeping once `arena_alloc` has installed another current chunk
      for an aligned request `a` that the current one cannot hold: the first
      old chunk with room, unlinked from the old list, or else a freshly
      mapped chunk; the previous current chunk is retired. None when no old
      chunk has room and the mapping fails. */
  function Refill(s: ArenaState, a: nat, pageSize: nat, now: int, mapped: bool): (r: Option<ArenaState>)
    requires pageSize > 0
    ensures r.Some? ==> r.value.current.Some? && r.value.totalUsed == s.totalUsed
    ensures r.None? <==> FirstFit(s.oldChunks, a).None? && !mapped
  {
    match FirstFit(s.oldChunks, a)
    case Some(i) =>
      Some(s.(current := Some(s.oldChunks[i]),
              oldChunks := Retire(s.current, RemoveAt(s.oldChunks, i)),
              chunkCount := s.chunkCount - Destroyed(s.current)))
    case None =>
      var created := CreateChunk(NewChunkSize(a), pageSize, now, mapped);
      if created.None? then None
      else
        Some(s.(current := created,
                oldChunks := Retire(s.current, s.oldChunks),
                chunkCount := s.chunkCount - Destroyed(s.current) + 1,
                totalAllocated := s.totalAllocated + created.value.size))
  }

  /** Handing out `a` bytes from the start of the free part of the current chunk. */
  function Bump(s: ArenaState, a: nat): AllocOutcome
    requires s.current.Some?
  {
    var c := s.current.value;
    AllocOutcome(Some(c.used), s.(current := Some(c.(used := c.used + a)), totalUsed := s.totalUsed + a))
  }

  /** `arena_alloc` on a non-NULL arena: the offset handed out within the new
      current chunk (None for NULL) and the bookkeeping afterwards. */
  function AllocStep(s: ArenaState, size: nat, pageSize: nat, now: int, mapped: bool): AllocOutcome
    requires pageSize > 0
  {
    if size == 0 || size > MAX_ALLOC_SIZE then AllocOutcome(None, s)
    else
      var a := AlignSize(size);
      if s.current.Some? && s.current.value.used + a <= s.current.value.size then Bump(s, a)
      else match Refill(s, a, pageSize, now, mapped)
        case None => AllocOutcome(None, s)
        case Some(t) => Bump(t, a)
  }

  /** A NULL result leaves the arena as it was; a size of 0 or above 1 MiB is
      refused; a request that fits, with a mapping available when one is
      needed, succeeds. A success hands out exactly the aligned size from the
      start of the free part of the current chunk, which it still fits, and
      counts it in `total_used`. `total_allocated` grows only by the
      page-rounded size of a newly mapped chunk. */
  lemma AllocAccounting(s: ArenaState, size: nat, pageSize: nat, now: int, mapped: bool)
    requires pageSize > 0
    ensures var out := AllocStep(s, size, pageSize, now, mapped);
      (out.ptr.None? ==> out.after == s) &&
      (size == 0 || size > MAX_ALLOC_SIZE ==> out.ptr.None?) &&
      (0 < size <= MAX_ALLOC_SIZE && mapped ==> out.ptr.Some?) &&
      (out.ptr.Some? ==>
        out.after.current.Some? &&
        out.after.current.value.used == out.ptr.value + AlignSize(size) &&
        out.after.totalUsed == s.totalUsed + AlignSize(size) &&
        out.after.current.value.used <= out.after.current.value.size) &&
      (out.after.totalAllocated == s.totalAllocated ||
       (0 < size <= MAX_ALLOC_SIZE &&
        out.after.totalAllocated == s.totalAllocated + PageRound(NewChunkSize(AlignSize(size)), pageSize)))
  {
  }

  lemma RetireSums(current: Option<Chunk>, olds: seq<Chunk>)
    ensures |Retire(current, olds)| + Destroyed(current) == |olds| + (if current.Some? then 1 else 0)
    ensures SumUsed(Retire(current, olds)) == SumUsed(olds) + (if current.Some? then current.value.used else 0)
    ensures SumSizes(Retire(current, olds)) <= SumSizes(olds) + (if current.Some? then current.value.size else 0)
    ensures current.Some? && current.value.used <= current.value.size && WithinSize(olds) ==>
      WithinSize(Retire(current, olds))
  {
    if current.Some? && current.value.used > 0 {
      SumsAppend([current.value], olds);
    }
  }

  /** The held chunks after a successful allocation: the new current chunk `c`
      in front of the old list `olds`. */
  lemma HeldAfter(s: ArenaState, c: Chunk, olds: seq<Chunk>)
    ensures Held(s.(current := Some(c), oldChunks := olds)) == [c] + olds
  {
  }

  /** The parts of a valid state's held chunks. */
  lemma HeldParts(s: ArenaState)
    requires ValidState(s)
    ensures WithinSize(s.oldChunks)
    ensures s.current.Some? ==> s.current.value.used <= s.current.value.size
    ensures SumUsed(Held(s)) == SumUsed(s.oldChunks) + (if s.current.Some? then s.current.value.used else 0)
    ensures SumSizes(Held(s)) == SumSizes(s.oldChunks) + (if s.current.Some? then s.current.value.size else 0)
  {
    var cur := if s.current.Some? then [s.current.value] else [];
    SumsAppend(cur, s.oldChunks);
    WithinSizeConcat(cur, s.oldChunks);
    if s.current.Some? {
      assert Held(s)[0] == s.current.value;
    }
  }

  /** An allocation served by the current chunk keeps the bookkeeping consistent. */
  lemma AllocInPlaceValid(s: ArenaState, a: nat)
    requires ValidState(s) && s.current.Some? && s.current.value.used + a <= s.current.value.size
    ensures var c := s.current.value;
      ValidState(s.(current := Some(c.(used := c.used + a)), totalUsed := s.totalUsed + a))
  {
    var c := s.current.value;
    HeldParts(s);
    SumsAppend([c.(used := c.used + a)], s.oldChunks);
    WithinSizeConcat([c.(used := c.used + a)], s.oldChunks);
  }

  /** An allocation served by the old chunk `c`, unlinked from `rest`, keeps
      the bookkeeping consistent. */
  lemma AllocMovedValid(s: ArenaState, c: Chunk, rest: seq<Chunk>, a: nat, extra: nat, added: nat)
    requires ValidState(s) && WithinSize(rest) && c.used + a <= c.size
    requires SumUsed(rest) + c.used <= SumUsed(s.oldChunks)
    requires SumSizes(rest) + c.size <= SumSizes(s.oldChunks) + added
    requires |rest| + 1 == |s.oldChunks| + extra
    ensures ValidState(s.(current := Some(c.(used := c.used + a)),
                          oldChunks := Retire(s.current, rest),
                          chunkCount := s.chunkCount - Destroyed(s.current) + extra,
                          totalAllocated := s.totalAllocated + added,
                          totalUsed := s.totalUsed + a))
  {
    HeldParts(s);
    var olds := Retire(s.current, rest);
    RetireSums(s.current, rest);
    var c' := c.(used := c.used + a);
    HeldAfter(s, c', olds);
    SumsAppend([c'], olds);
    WithinSizeConcat([c'], olds);
  }

  /** Reusing the first old chunk with room keeps the bookkeeping consistent. */
  lemma AllocReuseValid(s: ArenaState, size: nat, pageSize: nat, now: int, mapped: bool)
    requires pageSize > 0 && ValidState(s) && 0 < size <= MAX_ALLOC_SIZE
    requires !(s.current.Some? && s.current.value.used + AlignSize(size) <= s.current.value.size)
    requires FirstFit(s.oldChunks, AlignSize(size)).Some?
    ensures ValidState(AllocStep(s, size, pageSize, now, mapped).after)
  {
    var a := AlignSize(size);
    var i := FirstFit(s.oldChunks, a).value;
    HeldParts(s);
    AllocMovedValid(s, s.oldChunks[i], RemoveAt(s.oldChunks, i), a, 0, 0);
  }

  /** Mapping a new chunk keeps the bookkeeping consistent. */
  lemma AllocNewValid(s: ArenaState, size: nat, pageSize: nat, now: int, mapped: bool)
    requires pageSize > 0 && ValidState(s) && 0 < size <= MAX_ALLOC_SIZE && mapped
    requires !(s.current.Some? && s.current.value.used + AlignSize(size) <= s.current.value.size)
    requires FirstFit(s.oldChunks, AlignSize(size)).None?
    ensures ValidState(AllocStep(s, size, pageSize, now, mapped).after)
  {
    var a := AlignSize(size);
    var c := CreateChunk(NewChunkSize(a), pageSize, now, mapped).value;
    HeldParts(s);
    AllocMovedValid(s, c, s.oldChunks, a, 1, c.size);
  }

  /** `arena_alloc` keeps the bookkeeping consistent. */
  lemma AllocPreservesValid(s: ArenaState, size: nat, pageSize: nat, now: int, mapped: bool)
    requires pageSize > 0 && ValidState(s)
    ensures ValidState(AllocStep(s, size, pageSize, now, mapped).after)
  {
    if 0 < size <= MAX_ALLOC_SIZE {
      var a := AlignSize(size);
      if s.current.Some? && s.current.value.used + a <= s.current.value.size {
        AllocInPlaceValid(s, a);
      } else if FirstFit(s.oldChunks, a).Some? {
        AllocReuseValid(s, size, pageSize, now, mapped);
      } else if mapped {
        AllocNewValid(s, size, pageSize, now, mapped);
      }
    }
  }

  /** `arena_reset` on a non-NULL arena. */
  function ResetState(s: ArenaState, now: int): ArenaState {
    s.(current := if s.current.Some? then Some(s.current.value.(used := 0)) else None,
       oldChunks := [],
       chunkCount := s.chunkCount - |s.oldChunks|,
       totalUsed := 0,
       lastCleanup := now)
  }

  /** Reset destroys every old chunk, keeps the current one with nothing used,
      zeroes `total_used`, leaves `total_allocated` alone and keeps the
      bookkeeping consistent. */
  lemma ResetPreservesValid(s: ArenaState, now: int)
    requires ValidState(s)
    ensures var r := ResetState(s, now);
      ValidState(r) && r.oldChunks == [] && r.totalUsed == 0 &&
      r.totalAllocated == s.totalAllocated &&
      r.chunkCount == (if s.current.Some? then 1 else 0) &&
      (r.current.Some? <==> s.current.Some?) &&
      (r.current.Some? ==> r.current.value.used == 0 && r.current.value.size == s.current.value.size)
  {
    var cur := if s.current.Some? then [s.current.value] else [];
    SumsAppend(cur, s.oldChunks);
    var r := ResetState(s, now);
    assert Held(r) == if r.current.Some? then [r.current.value] else [];
  }

  /** `arena_cleanup_old` on a non-NULL arena: a non-positive age limit is a
      no-op (the clock is not even read); otherwise the old chunks older than
      the limit are destroyed. */
  function CleanupState(s: ArenaState, maxAge: int, now: int): ArenaState {
    if maxAge <= 0 then s
    else
      var kept := Young(s.oldChunks, now, maxAge);
      s.(oldChunks := kept,
         chunkCount := s.chunkCount - (|s.oldChunks| - |kept|),
         lastCleanup := now)
  }

  /** Cleanup keeps the bookkeeping consistent and never changes the current
      chunk, `total_used` or `total_allocated`. */
  lemma CleanupPreservesValid(s: ArenaState, maxAge: int, now: int)
    requires ValidState(s)
    ensures var r := CleanupState(s, maxAge, now);
      ValidState(r) && r.current == s.current &&
      r.totalUsed == s.totalUsed && r.totalAllocated == s.totalAllocated
    ensures maxAge <= 0 ==> CleanupState(s, maxAge, now) == s
    ensures maxAge > 0 ==> forall c :: c in CleanupState(s, maxAge, now).oldChunks <==>
      c in s.oldChunks && now - c.createdAt <= maxAge
  {
    if maxAge > 0 {
      YoungExactly(s.oldChunks, now, maxAge);
      var r := CleanupState(s, maxAge, now);
      var cur := if s.current.Some? then [s.current.value] else [];
      HeldParts(s);
      YoungShrinks(s.oldChunks, now, maxAge);
      SumsAppend(cur, r.oldChunks);
      WithinSizeConcat(cur, r.oldChunks);
    }
  }

  // ---------------------------------------------------------------------
  // The arena object

  class Arena {
    var current: Option<Chunk>
    var oldChunks: seq<Chunk>
    var totalUsed: nat
    var totalAllocated: nat
    var chunkCount: int
    var lastCleanup: int

    function State(): ArenaState
      reads this
    {
      ArenaState(current, oldChunks, totalUsed, totalAllocated, chunkCount, lastCleanup)
    }

    predicate Valid()
      reads this
    {
      ValidState(State())
    }

    /** The fields `arena_init` sets: no chunks, nothing used or allocated. */
    constructor (now: int)
      ensures State() == ArenaState(None, [], INITIAL_TOTAL_USED, 0, INITIAL_CHUNK_COUNT, now)
      ensures Valid()
    {
      current := None;
      oldChunks := [];
      totalUsed := INITIAL_TOTAL_USED;
      totalAllocated := 0;
      chunkCount := INITIAL_CHUNK_COUNT;
      lastCleanup := now;
    }
  }

  /** `arena_init`: NULL when the block or its mutex cannot be had. */
  method Init(now: int, available: bool) returns (arena: Arena?)
    ensures arena != null <==> available
    ensures arena != null ==> fresh(arena) && arena.Valid()
    ensures arena != null ==> arena.State() == ArenaState(None, [], INITIAL_TOTAL_USED, 0, INITIAL_CHUNK_COUNT, now)
  {
    if !available {
      return null;
    }
    arena := new Arena(now);
  }

  /** `arena_alloc`. `mapped` says whether a chunk mapping, if one is needed,
      succeeds. */
  method Alloc(arena: Arena?, size: nat, pageSize: nat, now: int, mapped: bool) returns (p: Option<nat>)
    requires pageSize > 0
    modifies arena
    ensures arena == null ==> p.None?
    ensures arena != null ==>
      var out := AllocStep(old(arena.State()), size, pageSize, now, mapped);
      p == out.ptr && arena.State() == out.after
  {
    if arena == null || size == 0 {
      return None;
    }
    if size > MAX_ALLOC_SIZE {
      return None;
    }
    var a := AlignSize(size);
    if arena.current.None? || arena.current.value.used + a > arena.current.value.size {
      var refilled := RefillCurrent(arena, a, pageSize, now, mapped);
      if !refilled {
        return None;
      }
    }
    var c := arena.current.value;
    p := Some(c.used);
    arena.current := Some(c.(used := c.used + a));
    arena.totalUsed := arena.totalUsed + a;
  }

  /** The search of the old list and, failing it, the mapping of a new chunk. */
  method RefillCurrent(arena: Arena, a: nat, pageSize: nat, now: int, mapped: bool) returns (ok: bool)
    requires pageSize > 0
    modifies arena
    ensures var r := Refill(old(arena.State()), a, pageSize, now, mapped);
      ok == r.Some? && arena.State() == if ok then r.value else old(arena.State())
  {
    var found := FindReusable(arena.oldChunks, a);
    if found.Some? {
      var i := found.value;
      var suitable := arena.oldChunks[i];
      arena.oldChunks := RemoveAt(arena.oldChunks, i);
      RetireCurrent(arena);
      arena.current := Some(suitable);
      return true;
    }
    var newChunkSize := CalculateNewChunkSize(a);
    var created := CreateChunk(newChunkSize, pageSize, now, mapped);
    if created.None? {
      return false;
    }
    RetireCurrent(arena);
    arena.current := created;
    arena.totalAllocated := arena.totalAllocated + created.value.size;
    arena.chunkCount := arena.chunkCount + 1;
    return true;
  }

  /** The step `arena_alloc` takes before installing another current chunk:
      a current chunk that has handed out memory is pushed onto the old
      list; an unused one is destroyed and no longer counted. */
  method RetireCurrent(arena: Arena)
    modifies arena
    ensures arena.State() == old(arena.State()).(oldChunks := Retire(old(arena.current), old(arena.oldChunks)),
                                                 chunkCount := old(arena.chunkCount) - Destroyed(old(arena.current)))
  {
    if arena.current.Some? && arena.current.value.used > 0 {
      arena.oldChunks := [arena.current.value] + arena.oldChunks;
    } else if arena.current.Some? {
      arena.chunkCount := arena.chunkCount - 1;
    }
  }

  /** `arena_reset`: the old chunks are destroyed one by one. */
  method Reset(arena: Arena?, now: int)
    modifies arena
    ensures arena != null ==> arena.State() == ResetState(old(arena.State()), now)
  {
    if arena == null {
      return;
    }
    var i := 0;
    while i < |arena.oldChunks|
      invariant i <= |arena.oldChunks|
      invariant arena.State() == old(arena.State()).(chunkCount := old(arena.chunkCount) - i)
    {
      arena.chunkCount := arena.chunkCount - 1;
      i := i + 1;
    }
    arena.oldChunks := [];
    if arena.current.Some? {
      arena.current := Some(arena.current.value.(used := 0));
    }
    arena.totalUsed := 0;
    arena.lastCleanup := now;
  }

  /** `arena_cleanup_old`: one pass over the old chunks, unlinking those
      older than `maxAge`. */
  method CleanupOld(arena: Arena?, maxAge: int, now: int)
    modifies arena
    ensures arena != null ==> arena.State() == CleanupState(old(arena.State()), maxAge, now)
  {
    if arena == null || maxAge <= 0 {
      return;
    }
    var chunks := arena.oldChunks;
    var kept := [];
    var i := 0;
    while i < |chunks|
      invariant i <= |chunks|
      invariant kept == Young(chunks[..i], now, maxAge)
      invariant arena.State() == old(arena.State()).(chunkCount := old(arena.chunkCount) - (i - |kept|))
    {
      assert chunks[..i + 1][..i] == chunks[..i];
      if now - chunks[i].createdAt > maxAge {
        arena.chunkCount := arena.chunkCount - 1;
      } else {
        kept := kept + [chunks[i]];
      }
      i := i + 1;
    }
    assert chunks[..i] == chunks;
    arena.oldChunks := kept;
    arena.lastCleanup := now;
  }

  /** `arena_destroy`: every chunk the arena holds is unmapped, the old ones
      first in list order and the current one last. Returns the chunks
      released; the arena must not be used afterwards. */
  method Destroy(arena: Arena?) returns (released: seq<Chunk>)
    ensures arena == null ==> released == []
    ensures arena != null ==> multiset(released) == multiset(Held(arena.State()))
    ensures arena != null ==> released == arena.oldChunks + (if arena.current.Some? then [arena.current.value] else [])
  {
    released := [];
    if arena == null {
      return;
    }
    var i := 0;
    while i < |arena.oldChunks|
      invariant i <= |arena.oldChunks|
      invariant released == arena.oldChunks[..i]
    {
      released := released + [arena.oldChunks[i]];
      i := i + 1;
    }
    assert arena.oldChunks[..i] == arena.oldChunks;
    if arena.current.Some? {
      released := released + [arena.current.value];
    }
  }

  /** `arena_get_total_used`: 0 for NULL; it covers every byte handed out
      from the chunks the arena holds. */
  function GetTotalUsed(arena: Arena?): (r: nat)
    reads arena
    ensures arena == null ==> r == 0
    ensures arena != null && arena.Valid() ==> SumUsed(Held(arena.State())) <= r
  {
    if arena == null then 0 else arena.totalUsed
  }

  /** `arena_get_total_allocated`: 0 for NULL; it covers the size of every
      chunk the arena holds. */
  function GetTotalAllocated(arena: Arena?): (r: nat)
    reads arena
    ensures arena == null ==> r == 0
    ensures arena != null && arena.Valid() ==> SumSizes(Held(arena.State())) <= r
  {
    if arena == null then 0 else arena.totalAllocated
  }

  /** `arena_get_chunk_count`: 0 for NULL; the number of chunks the arena holds. */
  function GetChunkCount(arena: Arena?): (r: int)
    reads arena
    ensures arena == null ==> r == 0
    ensures arena != null && arena.Valid() ==> r == |arena.oldChunks| + (if arena.current.Some? then 1 else 0)
  {
    if arena == null then 0 else arena.chunkCount
  }
}
