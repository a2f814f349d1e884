// Entry and page allocation (pages.c, the reservation buffer in accessor_storage.c, meta_copy_pages in
// meta.c) as interleaved steps of any number of threads, over any number of resizes. A step is one access
// to shared memory.
module Allocator {
  import opened Arith

  const ENTRIES_IN_PAGE: nat := 128

  // A cell of the page array. The array is allocated without being initialised.
  datatype Cell = Garbage | Null | Page

  // AtomicDictReservationBuffer
  datatype Buffer = Buffer(start: nat, size: nat, used: nat)

  datatype Pc =
    | Out                                            // not inside get_empty_entry
    | Scan(page: nat, from: nat, offset: nat)        // load the flags of a block's first entry
    | Try(page: nat, from: nat, offset: nat)         // CAS them to ENTRY_FLAGS_RESERVED
    | Recheck(page: nat, from: nat)                  // the page is full: load greatest_allocated_page again
    | AddPage(page: nat, from: nat)                  // CAS pages[page + 1]
    | StoreNext(new_: nat)                           // pages[new_ + 1] := NULL
    | Bump(new_: nat)                                // CAS greatest_allocated_page
    | Holding                                        // got an entry, not published yet
    | MustGrow

  datatype Thread = Thread(pc: Pc, buffer: Buffer)

  // `owner` tells which thread set the flag of a block's first entry; `published` are the locations that
  // were written to an index, and `len` is the number of items the dict was created with.
  datatype State = State(bs: nat, pages: seq<Cell>, greatest: nat, owner: map<nat, nat>, published: set<nat>,
      threads: seq<Thread>, len: nat)

  // What AtomicDict_init accepts as buffer_size.
  predicate BufferSize(bs: nat) {
    bs == 1 || bs == 2 || bs == 4 || bs == 8 || bs == 16 || bs == 32 || bs == 64
  }

  // ---- steps ----

  function At(s: State, t: nat, pc: Pc): State
    requires t < |s.threads|
  {
    s.(threads := s.threads[t := s.threads[t].(pc := pc)])
  }

  // reservation_buffer_put and then reservation_buffer_pop
  function Take(s: State, t: nat, location: nat): State
    requires t < |s.threads|
  {
    s.(threads := s.threads[t := Thread(Holding, Buffer(location, s.bs, 1))])
  }

  function Location(page: nat, from: nat, offset: nat): nat {
    page * ENTRIES_IN_PAGE + (from + offset) % ENTRIES_IN_PAGE
  }

  // hash & (ENTRIES_IN_PAGE - 1) & ~(reservation_buffer_size - 1)
  function InsertPosition(hash: nat, bs: nat): nat
    requires bs > 0
  {
    BlockOf(hash % ENTRIES_IN_PAGE, bs)
  }

  // The hash of the key to insert, and what becomes of the entry.
  datatype Choice = Choice(hash: nat, publish: bool)

  function Popped(s: State, t: nat): nat
    requires t < |s.threads| && s.threads[t].buffer.used > 0
  {
    s.threads[t].buffer.start + s.threads[t].buffer.used - 1
  }

  function Step(s: State, t: nat, ch: Choice): State
    requires t < |s.threads| && s.bs > 0
  {
    var b := s.threads[t].buffer;
    match s.threads[t].pc
    case Out =>
      if b.used == b.size then At(s, t, Scan(s.greatest, InsertPosition(ch.hash, s.bs), 0))
      else s.(threads := s.threads[t := Thread(Holding, b.(used := b.used + 1))])
    case Scan(page, from, offset) =>
      if offset >= ENTRIES_IN_PAGE then At(s, t, Recheck(page, from))
      else if Location(page, from, offset) !in s.owner then At(s, t, Try(page, from, offset))
      else At(s, t, Scan(page, from, offset + s.bs))
    case Try(page, from, offset) =>
      var x := Location(page, from, offset);
      if x !in s.owner then Take(s.(owner := s.owner[x := t]), t, x) else At(s, t, Scan(page, from, offset + s.bs))
    case Recheck(page, from) =>
      if s.greatest != page then At(s, t, Scan(s.greatest, from, 0))
      else if s.greatest + 1 >= |s.pages| then At(s, t, MustGrow)
      else At(s, t, AddPage(page, from))
    case AddPage(page, from) =>
      // the new page's first entry is reserved before the CAS
      if page + 1 < |s.pages| && s.pages[page + 1].Null?
      then At(s.(pages := s.pages[page + 1 := Page], owner := s.owner[(page + 1) * ENTRIES_IN_PAGE := t]), t,
          StoreNext(page + 1))
      else At(s, t, Scan(page, from, 0))
    case StoreNext(n) => At(if n + 1 < |s.pages| then s.(pages := s.pages[n + 1 := Null]) else s, t, Bump(n))
    case Bump(n) =>
      Take(if s.greatest + 1 == n then s.(greatest := n) else s, t, n * ENTRIES_IN_PAGE)
    case Holding =>
      if b.used == 0 then s
      else if ch.publish then At(s.(published := s.published + {Popped(s, t)}), t, Out)
      else s.(threads := s.threads[t := Thread(Out, b.(used := b.used - 1))])   // reservation_buffer_put_back_one
    case MustGrow => At(s, t, Out)
  }

  // meta_copy_pages: the entries and their flags are shared with the old generation, the rest of the array
  // is whatever malloc returned.
  ghost predicate CopiesPages(s: State, s': State) {
    && s.greatest + 1 < |s'.pages| == 2 * |s.pages|
    && s' == s.(pages := s'.pages)
    && (forall p :: 0 <= p <= s.greatest && p < |s.pages| ==> s'.pages[p] == s.pages[p])
    && s'.pages[s.greatest + 1] == Null
  }

  // It is done by a leader that holds every accessor's lock.
  ghost predicate Regenerates(s: State, s': State) {
    (forall t :: 0 <= t < |s.threads| ==> s.threads[t].pc.Out?) && CopiesPages(s, s')
  }

  // The greatest page that AtomicDict_init allocates: it makes room for twice the initial items.
  function FirstPage(len: nat): nat {
    2 * len / ENTRIES_IN_PAGE
  }

  predicate FirstPages(s: State) {
    && BufferSize(s.bs) && s.greatest == FirstPage(s.len) < |s.pages|
    && (forall p :: 0 <= p <= s.greatest ==> s.pages[p] == Page)
    && (s.greatest + 1 < |s.pages| ==> s.pages[s.greatest + 1] == Null)
    && |s.threads| > 0 && forall t :: 0 < t < |s.threads| ==> s.threads[t] == Thread(Out, Buffer(0, 0, 0))
  }

  // The empty dict: entry 0 stays reserved for tombstones, and the creating thread gets the rest of its block.
  predicate InitEmpty(s: State) {
    && FirstPages(s) && s.len == 0 && s.owner == map[0 := 0] && s.published == {}
    && s.threads[0] == Thread(Out, Buffer(1, s.bs - 1, 0))
  }

  // A dict of initial items, in entries 1 to len, all flagged: the creating thread gets the entries from
  // len + 1 to the end of the block, whether or not the block is flagged.
  ghost predicate InitFrom(s: State) {
    && FirstPages(s) && s.len > 0
    && (forall b: nat :: b in s.owner <==> b <= s.len && Aligned(b, s.bs))
    && (forall b :: b in s.owner ==> s.owner[b] == 0)
    && (forall x: nat :: x in s.published <==> 1 <= x <= s.len)
    && s.threads[0] == Thread(Out, Buffer(s.len + 1, s.bs - Rem(s.len + 1, s.bs), 0))
  }

  ghost predicate Init(s: State) {
    InitEmpty(s) || InitFrom(s)
  }

  // The first buffer of a dict with initial items is a whole block that nobody flagged ...
  predicate FirstBlockUnflagged(len: nat, bs: nat)
    requires bs > 0
  {
    len > 0 && Aligned(len + 1, bs)
  }

  // ... on the page where the other threads begin to scan.
  predicate FirstBlockShared(len: nat, bs: nat)
    requires bs > 0
  {
    FirstBlockUnflagged(len, bs) && (len + 1) / ENTRIES_IN_PAGE == FirstPage(len)
  }

  ghost predicate Next(s: State, s': State) {
    Regenerates(s, s') || (s.bs > 0 && exists t: nat, ch :: t < |s.threads| && s' == Step(s, t, ch))
  }

  ghost predicate Path(run: seq<State>) {
    run != [] && forall i :: 0 <= i < |run| - 1 ==> Next(run[i], run[i + 1])
  }

  ghost predicate Run(run: seq<State>) {
    Path(run) && Init(run[0])
  }

  // ---- blocks ----

  // The first location of x's block: x & ~(bs - 1).
  function BlockOf(x: nat, bs: nat): nat
    requires bs > 0
  {
    x - Rem(x, bs)
  }

  // x is the start of a block.
  predicate Aligned(x: nat, bs: nat)
    requires bs > 0
  {
    Rem(x, bs) == 0
  }

  lemma BlocksInPage(bs: nat) returns (k: nat)
    requires BufferSize(bs)
    ensures k > 0 && k * bs == ENTRIES_IN_PAGE
  {
    k := if bs == 1 then 128 else if bs == 2 then 64 else if bs == 4 then 32 else if bs == 8 then 16
         else if bs == 16 then 8 else if bs == 32 then 4 else 2;
  }

  // Block m is the i-th block of page p.
  lemma BlockPlace(m: nat, bs: nat, k: nat) returns (p: nat, i: nat)
    requires bs > 0 && k > 0 && k * bs == ENTRIES_IN_PAGE
    ensures i < k && m == p * k + i && m * bs == p * ENTRIES_IN_PAGE + i * bs && i * bs + bs <= ENTRIES_IN_PAGE
  {
    QuoRem(m, k);
    p, i := Quo(m, k), Rem(m, k);
    MulDistributes(p * k, i, bs);
    MulAssociates(p, k, bs);
    MulMonotone(i + 1, k, bs);
    MulDistributes(i, 1, bs);
  }

  // A block does not straddle pages.
  lemma BlockInPage(x: nat, bs: nat)
    requires BufferSize(bs)
    ensures var b := BlockOf(x, bs);
            && b <= x < b + bs && Aligned(b, bs)
            && b / ENTRIES_IN_PAGE == x / ENTRIES_IN_PAGE && b % ENTRIES_IN_PAGE + bs <= ENTRIES_IN_PAGE
  {
    var k := BlocksInPage(bs);
    QuoRem(x, bs);
    var m, r := Quo(x, bs), Rem(x, bs);
    var p, i := BlockPlace(m, bs, k);
    DivModIs(x, ENTRIES_IN_PAGE, p, i * bs + r);
    DivModIs(m * bs, ENTRIES_IN_PAGE, p, i * bs);
    QuoRemUnique(m * bs, bs, m, 0);
  }

  // Blocks do not overlap.
  lemma BlockIs(x: nat, bs: nat, b: nat)
    requires bs > 0 && Aligned(b, bs) && b <= x < b + bs
    ensures BlockOf(x, bs) == b
  {
    QuoRem(b, bs);
    QuoRemUnique(x, bs, Quo(b, bs), x - b);
  }

  // The location of block i of a page.
  lemma PlaceOfBlock(page: nat, i: nat, bs: nat, k: nat)
    requires bs > 0 && i < k && k * bs == ENTRIES_IN_PAGE && i * bs < ENTRIES_IN_PAGE
    ensures Aligned(page * ENTRIES_IN_PAGE + i * bs, bs)
    ensures (page * ENTRIES_IN_PAGE + i * bs) / ENTRIES_IN_PAGE == page
  {
    MulDistributes(page * k, i, bs);
    MulAssociates(page, k, bs);
    QuoRemUnique(page * ENTRIES_IN_PAGE + i * bs, bs, page * k + i, 0);
    DivModIs(page * ENTRIES_IN_PAGE + i * bs, ENTRIES_IN_PAGE, page, i * bs);
  }

  lemma ScanPosition(page: nat, from: nat, offset: nat, bs: nat)
    requires BufferSize(bs) && Aligned(from, bs) && Aligned(offset, bs)
    ensures Aligned(Location(page, from, offset), bs) && Location(page, from, offset) / ENTRIES_IN_PAGE == page
  {
    var k := BlocksInPage(bs);
    var x := SumOfBlocks(from, offset, bs);
    var q, i := BlockPlace(x, bs, k);
    DivModIs(from + offset, ENTRIES_IN_PAGE, q, i * bs);
    PlaceOfBlock(page, i, bs, k);
  }

  lemma SumOfBlocks(a: nat, b: nat, bs: nat) returns (x: nat)
    requires bs > 0 && Aligned(a, bs) && Aligned(b, bs)
    ensures a + b == x * bs && Aligned(a + b, bs)
  {
    QuoRem(a, bs);
    QuoRem(b, bs);
    x := Quo(a, bs) + Quo(b, bs);
    MulDistributes(Quo(a, bs), Quo(b, bs), bs);
    QuoRemUnique(a + b, bs, x, 0);
  }

  lemma NextOffset(offset: nat, bs: nat)
    requires BufferSize(bs) && Aligned(offset, bs)
    ensures Aligned(offset + bs, bs)
    ensures offset < ENTRIES_IN_PAGE ==> offset + bs <= ENTRIES_IN_PAGE
  {
    var k := BlocksInPage(bs);
    QuoRem(offset, bs);
    var o := Quo(offset, bs);
    MulDistributes(o, 1, bs);
    QuoRemUnique(offset + bs, bs, o + 1, 0);
    MulCancels(o, k, bs);
    if o < k {
      MulMonotone(o + 1, k, bs);
    }
  }

  // The scan starts anywhere and wraps: it passes every block of the page.
  lemma ScanCovers(page: nat, from: nat, x: nat, bs: nat) returns (offset: nat)
    requires BufferSize(bs) && Aligned(from, bs) && from < ENTRIES_IN_PAGE && Aligned(x, bs)
    requires x / ENTRIES_IN_PAGE == page
    ensures offset < ENTRIES_IN_PAGE && Aligned(offset, bs) && Location(page, from, offset) == x
  {
    var k := BlocksInPage(bs);
    QuoRem(from, bs);
    QuoRem(x, bs);
    var p, i := BlockPlace(Quo(x, bs), bs, k);
    DivModIs(x, ENTRIES_IN_PAGE, p, i * bs);
    var f := Quo(from, bs);
    MulCancels(f, k, bs);
    offset := ScanOffset(f, i, k, bs);
    DivModIs(from + offset, ENTRIES_IN_PAGE, if i >= f then 0 else 1, i * bs);
  }

  lemma ScanOffset(f: nat, i: nat, k: nat, bs: nat) returns (offset: nat)
    requires bs > 0 && f < k && i < k && k * bs == ENTRIES_IN_PAGE
    ensures offset < ENTRIES_IN_PAGE && Aligned(offset, bs)
    ensures f * bs + offset == if i >= f then i * bs else ENTRIES_IN_PAGE + i * bs
  {
    var o := if i >= f then i - f else i + k - f;
    offset := o * bs;
    MulDistributes(o, f, bs);
    MulDistributes(i, k, bs);
    QuoRemUnique(offset, bs, o, 0);
    MulMonotone(o + 1, k, bs);
    MulDistributes(o, 1, bs);
  }
}
