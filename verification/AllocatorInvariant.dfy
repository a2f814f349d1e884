// The invariant of Allocator, and what it promises over whole runs.
module AllocatorInvariant {
  import opened Arith
  import opened Allocator

  predicate Adding(s: State, u: nat) {
    u < |s.threads| && (s.threads[u].pc.StoreNext? || s.threads[u].pc.Bump?)
  }

  // Every block of the page is reserved.
  ghost predicate PageFull(s: State, p: nat)
    requires s.bs > 0
  {
    forall x: nat :: x / ENTRIES_IN_PAGE == p && Aligned(x, s.bs) ==> x in s.owner
  }

  ghost predicate PagesOk(s: State) {
    && s.bs > 0 && FirstPage(s.len) <= s.greatest < |s.pages|
    && (forall p :: 0 <= p <= s.greatest ==> s.pages[p] == Page)
    && (forall p :: FirstPage(s.len) <= p < s.greatest ==> PageFull(s, p))
    && (s.greatest + 1 < |s.pages| ==>
          s.pages[s.greatest + 1] == Null || (s.pages[s.greatest + 1] == Page && exists u: nat :: Adding(s, u)))
    && (forall u: nat, v: nat :: Adding(s, u) && Adding(s, v) ==> u == v)
  }

  ghost predicate OwnerOk(s: State, b: nat)
    requires s.bs > 0 && b in s.owner
  {
    && Aligned(b, s.bs) && s.owner[b] < |s.threads|
    && (b / ENTRIES_IN_PAGE <= s.greatest || (b == (s.greatest + 1) * ENTRIES_IN_PAGE && Adding(s, s.owner[b])))
  }

  // Who the blocks belong to: whoever set their flags. The first buffer's block, when it has no flag but
  // lies on a page that is never scanned, is the creating thread's all the same.
  function Owners(s: State): map<nat, nat>
    requires s.bs > 0
  {
    if FirstBlockUnflagged(s.len, s.bs) && !FirstBlockShared(s.len, s.bs) then s.owner[s.len + 1 := 0] else s.owner
  }

  // Unless other threads can take the first buffer's block.
  predicate Safe(s: State)
    requires s.bs > 0
  {
    !FirstBlockShared(s.len, s.bs)
  }

  ghost predicate PublishedOk(s: State, x: nat)
    requires s.bs > 0
  {
    Safe(s) ==> 1 <= x && BlockOf(x, s.bs) in Owners(s) && x / ENTRIES_IN_PAGE <= s.greatest
  }

  ghost predicate Shared(s: State) {
    && BufferSize(s.bs) && PagesOk(s) && 0 in s.owner
    && (forall b :: b in s.owner ==> OwnerOk(s, b))
    && (forall x :: x in s.published ==> PublishedOk(s, x))
  }

  // The first location of a thread's buffer that is not in use: the entry it holds, or the next one.
  function Next0(th: Thread): nat {
    th.buffer.start + (if th.pc.Holding? && th.buffer.used > 0 then th.buffer.used - 1 else th.buffer.used)
  }

  // The entries that the thread holds or may still hand out.
  predicate Has(s: State, u: nat, x: nat) {
    u < |s.threads| && Next0(s.threads[u]) <= x < s.threads[u].buffer.start + s.threads[u].buffer.size
  }

  ghost predicate BufferOk(s: State, u: nat)
    requires s.bs > 0 && u < |s.threads|
  {
    var th := s.threads[u];
    var b := th.buffer;
    && b.used <= b.size && (th.pc.Holding? ==> b.used > 0)
    && (Safe(s) ==>
          && (b.size > 0 ==>
                && 1 <= b.start && BlockOf(b.start, s.bs) in Owners(s) && Owners(s)[BlockOf(b.start, s.bs)] == u
                && b.start + b.size <= BlockOf(b.start, s.bs) + s.bs && b.start / ENTRIES_IN_PAGE <= s.greatest)
          && forall x :: Has(s, u, x) ==> x !in s.published)
  }

  ghost predicate Scanned(s: State, page: nat, from: nat, offset: nat)
    requires s.bs > 0
  {
    && FirstPage(s.len) <= page <= s.greatest && Aligned(from, s.bs) && from < ENTRIES_IN_PAGE
    && Aligned(offset, s.bs) && offset <= ENTRIES_IN_PAGE
    && forall j: nat :: j < offset && Aligned(j, s.bs) ==> Location(page, from, j) in s.owner
  }

  ghost predicate PcOk(s: State, u: nat)
    requires s.bs > 0 && u < |s.threads|
  {
    var th := s.threads[u];
    && (!th.pc.Out? && !th.pc.Holding? ==> th.buffer.used == th.buffer.size)
    && match th.pc
       case Out => true
       case Holding => true
       case Scan(page, from, offset) => Scanned(s, page, from, offset)
       case Try(page, from, offset) => Scanned(s, page, from, offset) && offset < ENTRIES_IN_PAGE
       case Recheck(page, from) =>
         FirstPage(s.len) <= page <= s.greatest && PageFull(s, page) && Aligned(from, s.bs) && from < ENTRIES_IN_PAGE
       case AddPage(page, from) =>
         && FirstPage(s.len) <= page <= s.greatest && PageFull(s, page) && Aligned(from, s.bs)
         && from < ENTRIES_IN_PAGE && page + 1 < |s.pages|
       case StoreNext(n) => AddsPage(s, u, n)
       case Bump(n) => AddsPage(s, u, n) && (n + 1 < |s.pages| ==> s.pages[n + 1] == Null)
       case MustGrow => forall p :: FirstPage(s.len) <= p < |s.pages| ==> PageFull(s, p)
  }

  ghost predicate AddsPage(s: State, u: nat, n: nat)
    requires s.bs > 0
  {
    && n == s.greatest + 1 < |s.pages| && s.pages[n] == Page
    && n * ENTRIES_IN_PAGE in s.owner && s.owner[n * ENTRIES_IN_PAGE] == u && PageFull(s, s.greatest)
  }

  ghost predicate ThreadOk(s: State, u: nat)
    requires s.bs > 0 && u < |s.threads|
  {
    BufferOk(s, u) && PcOk(s, u)
  }

  ghost predicate Inv(s: State) {
    Shared(s) && forall u :: 0 <= u < |s.threads| ==> ThreadOk(s, u)
  }

  // ---- what a step may do to the others ----

  ghost predicate Evolves(s: State, s': State, t: nat) {
    && t < |s.threads| == |s'.threads| && s'.bs == s.bs > 0 && s'.len == s.len
    && (forall u :: 0 <= u < |s.threads| && u != t ==> s'.threads[u] == s.threads[u])
    && (forall b :: b in s.owner ==> b in s'.owner && s'.owner[b] == s.owner[b])
    && s.published <= s'.published && (forall x :: x in s'.published && x !in s.published ==> Has(s, t, x))
    && |s'.pages| == |s.pages| && s.greatest <= s'.greatest
    && (s'.greatest > s.greatest ==> Adding(s, t))
    && (forall p :: 0 <= p < |s.pages| && s'.pages[p] != s.pages[p] ==>
          (s'.pages[p] == Null && Adding(s, t)) || (s.pages[p] == Null && s'.pages[p] == Page && p == s.greatest + 1))
  }

  // No entry is in two buffers.
  lemma Exclusive(s: State, u: nat, v: nat, x: nat)
    requires Shared(s) && Safe(s) && u < |s.threads| && v < |s.threads| && BufferOk(s, u) && BufferOk(s, v)
    requires Has(s, u, x) && Has(s, v, x)
    ensures u == v
  {
    InBlock(s, u, x);
    InBlock(s, v, x);
  }

  lemma InBlock(s: State, u: nat, x: nat)
    requires Shared(s) && Safe(s) && u < |s.threads| && BufferOk(s, u) && Has(s, u, x)
    ensures BlockOf(x, s.bs) in Owners(s) && Owners(s)[BlockOf(x, s.bs)] == u && 1 <= x
    ensures x / ENTRIES_IN_PAGE <= s.greatest
  {
    var start := s.threads[u].buffer.start;
    BlockInPage(start, s.bs);
    BlockIs(x, s.bs, BlockOf(start, s.bs));
    BlockInPage(x, s.bs);
  }

  lemma BufferStable(s: State, s': State, t: nat, u: nat)
    requires Evolves(s, s', t) && Shared(s) && u < |s.threads| && u != t && BufferOk(s, u) && BufferOk(s, t)
    ensures BufferOk(s', u)
  {
    forall x | Safe(s') && Has(s', u, x)
      ensures x !in s'.published
    {
      assert Has(s, u, x);
      if x in s'.published {
        Exclusive(s, u, t, x);
      }
    }
  }

  lemma PcStable(s: State, s': State, t: nat, u: nat)
    requires Evolves(s, s', t) && PagesOk(s) && u < |s.threads| && u != t && PcOk(s, u)
    ensures PcOk(s', u)
  {
    if Adding(s, u) {
      assert !Adding(s, t);
    }
    forall p | PageFull(s, p)
      ensures PageFull(s', p)
    {
    }
  }

  lemma OthersOk(s: State, s': State, t: nat, u: nat)
    requires Evolves(s, s', t) && Inv(s) && u < |s.threads| && u != t
    ensures ThreadOk(s', u)
  {
    hide BufferOk, PcOk, PagesOk;
    assert ThreadOk(s, u) && ThreadOk(s, t);
    BufferStable(s, s', t, u);
    PcStable(s, s', t, u);
  }

  // ---- one step of thread t ----

  ghost predicate Kept(s: State, s': State, t: nat) {
    Evolves(s, s', t) && Shared(s') && ThreadOk(s', t)
  }

  // Steps that change only the thread itself.
  ghost predicate Private(s: State, s': State, t: nat) {
    && t < |s.threads| == |s'.threads| && s'.bs == s.bs && s'.len == s.len
    && s'.pages == s.pages && s'.greatest == s.greatest && s'.owner == s.owner
    && s'.published == s.published
    && (forall u :: 0 <= u < |s.threads| && u != t ==> s'.threads[u] == s.threads[u])
    && !Adding(s, t) && !Adding(s', t)
  }

  lemma PrivateKeeps(s: State, s': State, t: nat)
    requires Private(s, s', t) && Shared(s)
    ensures Evolves(s, s', t) && Shared(s')
  {
    forall p | PageFull(s, p)
      ensures PageFull(s', p)
    {
    }
    assert forall u: nat :: Adding(s', u) <==> Adding(s, u);
    forall b | b in s'.owner
      ensures OwnerOk(s', b)
    {
      assert OwnerOk(s, b);
    }
    forall x | x in s'.published
      ensures PublishedOk(s', x)
    {
      assert PublishedOk(s, x);
    }
  }

  // The next entry of the buffer.
  lemma PopKept(s: State, t: nat, ch: Choice, s': State)
    requires Shared(s) && t < |s.threads| && ThreadOk(s, t) && s.threads[t].pc.Out? && s' == Step(s, t, ch)
    requires s.threads[t].buffer.used != s.threads[t].buffer.size
    ensures Kept(s, s', t)
  {
    hide Shared;
    PrivateKeeps(s, s', t);
    forall x | Safe(s') && Has(s', t, x)
      ensures x !in s'.published
    {
      assert Has(s, t, x);
    }
  }

  // The buffer is used up: a scan begins on the greatest page.
  lemma ScanBegins(s: State, t: nat, ch: Choice, s': State)
    requires Shared(s) && t < |s.threads| && ThreadOk(s, t) && s.threads[t].pc.Out? && s' == Step(s, t, ch)
    requires s.threads[t].buffer.used == s.threads[t].buffer.size
    ensures Kept(s, s', t)
  {
    hide Shared, BufferOk;
    GreatestPage(s);
    PrivateKeeps(s, s', t);
    BufferSame(s, s', t);
    InsertAligned(ch.hash, s.bs);
  }

  lemma GreatestPage(s: State)
    requires Shared(s)
    ensures BufferSize(s.bs) && FirstPage(s.len) <= s.greatest
  {
  }

  lemma GrowEnds(s: State, t: nat, ch: Choice, s': State)
    requires Shared(s) && t < |s.threads| && ThreadOk(s, t) && s.threads[t].pc.MustGrow? && s' == Step(s, t, ch)
    ensures Kept(s, s', t)
  {
    hide Shared, BufferOk, PageFull;
    PrivateKeeps(s, s', t);
    BufferSame(s, s', t);
  }

  lemma InsertAligned(hash: nat, bs: nat)
    requires BufferSize(bs)
    ensures Aligned(InsertPosition(hash, bs), bs) && InsertPosition(hash, bs) < ENTRIES_IN_PAGE
  {
    BlockInPage(hash % ENTRIES_IN_PAGE, bs);
  }

  // When the scan has gone round, the page is full.
  lemma ScanComplete(s: State, page: nat, from: nat)
    requires s.bs > 0 && BufferSize(s.bs) && Scanned(s, page, from, ENTRIES_IN_PAGE)
    ensures PageFull(s, page)
  {
    forall x: nat | x / ENTRIES_IN_PAGE == page && Aligned(x, s.bs)
      ensures x in s.owner
    {
      var j := ScanCovers(page, from, x, s.bs);
    }
  }

  lemma OneMoreScanned(s: State, page: nat, from: nat, offset: nat)
    requires s.bs > 0 && BufferSize(s.bs) && Scanned(s, page, from, offset) && offset < ENTRIES_IN_PAGE
    requires Location(page, from, offset) in s.owner
    ensures Scanned(s, page, from, offset + s.bs)
  {
    NextOffset(offset, s.bs);
    forall j: nat | j < offset + s.bs && Aligned(j, s.bs)
      ensures Location(page, from, j) in s.owner
    {
      if j >= offset {
        BlockIs(j, s.bs, offset);
        assert j == offset;
      }
    }
  }

  lemma ScanSame(s: State, s': State, page: nat, from: nat, offset: nat)
    requires s.bs > 0 && s'.bs == s.bs && s'.len == s.len && s'.owner == s.owner && s'.greatest == s.greatest
    requires Scanned(s, page, from, offset)
    ensures Scanned(s', page, from, offset)
  {
  }

  lemma BufferSame(s: State, s': State, t: nat)
    requires Private(s, s', t) && s.bs > 0 && BufferOk(s, t) && s'.threads[t].buffer == s.threads[t].buffer
    requires s'.threads[t].pc.Holding? <==> s.threads[t].pc.Holding?
    ensures BufferOk(s', t)
  {
    forall x | Safe(s') && Has(s', t, x)
      ensures x !in s'.published
    {
      assert Has(s, t, x);
    }
  }

  lemma ScanKept(s: State, t: nat, ch: Choice, s': State)
    requires Shared(s) && t < |s.threads| && ThreadOk(s, t) && s.threads[t].pc.Scan? && s' == Step(s, t, ch)
    ensures Kept(s, s', t)
  {
    hide PagesOk, BufferOk, Scanned, PageFull;
    PrivateKeeps(s, s', t);
    BufferSame(s, s', t);
    var pc := s.threads[t].pc;
    ScanEnds(s, pc.page, pc.from, pc.offset);
    FullSame(s, s', pc.page);
    if pc.offset < ENTRIES_IN_PAGE {
      ScanSame(s, s', pc.page, pc.from, pc.offset);
      if Location(pc.page, pc.from, pc.offset) in s.owner {
        OneMoreScanned(s, pc.page, pc.from, pc.offset);
        ScanSame(s, s', pc.page, pc.from, pc.offset + s.bs);
      }
    }
  }

  lemma FullSame(s: State, s': State, p: nat)
    requires s.bs > 0 && s'.bs == s.bs && s'.owner == s.owner
    ensures PageFull(s', p) <==> PageFull(s, p)
  {
  }

  lemma ScanEnds(s: State, page: nat, from: nat, offset: nat)
    requires s.bs > 0 && BufferSize(s.bs) && Scanned(s, page, from, offset)
    ensures FirstPage(s.len) <= page <= s.greatest && Aligned(from, s.bs) && from < ENTRIES_IN_PAGE
    ensures Aligned(offset, s.bs)
    ensures offset >= ENTRIES_IN_PAGE ==> PageFull(s, page)
  {
    if offset >= ENTRIES_IN_PAGE {
      ScanComplete(s, page, from);
    }
  }

  lemma RecheckKept(s: State, t: nat, ch: Choice, s': State)
    requires Shared(s) && t < |s.threads| && ThreadOk(s, t) && s.threads[t].pc.Recheck? && s' == Step(s, t, ch)
    ensures Kept(s, s', t)
  {
    hide BufferOk, PageFull;
    PrivateKeeps(s, s', t);
    BufferSame(s, s', t);
    forall p: nat
      ensures PageFull(s', p) <==> PageFull(s, p)
    {
      FullSame(s, s', p);
    }
  }

  // ---- a block is reserved ----

  // A reservation adds an owner and keeps the others.
  ghost predicate MoreOwned(s: State, s': State, t: nat, b: nat) {
    && t < |s.threads| == |s'.threads| && s'.bs == s.bs && s'.len == s.len && s'.owner == s.owner[b := t]
    && b !in s.owner
    && s'.published == s.published
    && (forall u :: 0 <= u < |s.threads| && u != t ==> s'.threads[u] == s.threads[u])
  }

  lemma FullMonotone(s: State, s': State)
    requires s.bs > 0 && s'.bs == s.bs && forall b :: b in s.owner ==> b in s'.owner
    ensures forall p :: PageFull(s, p) ==> PageFull(s', p)
  {
  }

  // A fresh block holds no published entry.
  lemma FreshBlock(s: State, b: nat, x: nat)
    requires Shared(s) && Safe(s) && Aligned(b, s.bs) && b !in s.owner && b <= x < b + s.bs
    requires FirstPage(s.len) <= b / ENTRIES_IN_PAGE
    ensures x !in s.published
  {
    BlockIs(x, s.bs, b);
    assert x in s.published ==> PublishedOk(s, x);
  }

  lemma TryKept(s: State, t: nat, ch: Choice, s': State)
    requires Shared(s) && t < |s.threads| && ThreadOk(s, t) && s.threads[t].pc.Try? && s' == Step(s, t, ch)
    ensures Kept(s, s', t)
  {
    hide PagesOk, BufferOk, Scanned;
    var pc := s.threads[t].pc;
    var x := Location(pc.page, pc.from, pc.offset);
    ScanEnds(s, pc.page, pc.from, pc.offset);
    if x in s.owner {
      PrivateKeeps(s, s', t);
      BufferSame(s, s', t);
      OneMoreScanned(s, pc.page, pc.from, pc.offset);
      ScanSame(s, s', pc.page, pc.from, pc.offset + s.bs);
    } else {
      ScanPosition(pc.page, pc.from, pc.offset, s.bs);
      Taken(s, s', t, x);
      TakenPages(s, s', t, x);
    }
  }

  ghost predicate Takes(s: State, s': State, t: nat, x: nat) {
    && MoreOwned(s, s', t, x) && s'.pages == s.pages && s'.greatest == s.greatest
    && s'.threads[t] == Thread(Holding, Buffer(x, s.bs, 1)) && !Adding(s, t)
  }

  lemma Taken(s: State, s': State, t: nat, x: nat)
    requires Shared(s) && Takes(s, s', t, x) && Aligned(x, s.bs)
    requires FirstPage(s.len) <= x / ENTRIES_IN_PAGE <= s.greatest
    ensures BufferOk(s', t) && Evolves(s, s', t)
    ensures forall b :: b in s'.owner ==> OwnerOk(s', b)
    ensures forall y :: y in s'.published ==> PublishedOk(s', y)
  {
    hide PagesOk;
    assert forall u: nat :: Adding(s', u) <==> Adding(s, u);
    BlockIs(x, s.bs, x);
    forall y | Safe(s') && Has(s', t, y)
      ensures y !in s'.published
    {
      FreshBlock(s, x, y);
    }
    forall b | b in s'.owner
      ensures OwnerOk(s', b)
    {
      if b != x { assert OwnerOk(s, b); }
    }
    forall y | y in s'.published
      ensures PublishedOk(s', y)
    {
      assert PublishedOk(s, y);
    }
  }

  lemma TakenPages(s: State, s': State, t: nat, x: nat)
    requires PagesOk(s) && Takes(s, s', t, x)
    ensures PagesOk(s')
  {
    FullMonotone(s, s');
    assert forall u: nat :: Adding(s', u) <==> Adding(s, u);
  }

  // ---- a page is added ----

  lemma NoOtherAdder(s: State, n: nat)
    requires Inv(s) && n == s.greatest + 1 < |s.pages| && s.pages[n] == Null
    ensures forall u: nat :: !Adding(s, u)
    ensures n * ENTRIES_IN_PAGE !in s.owner
  {
    hide BufferOk, PagesOk;
    forall u: nat
      ensures !Adding(s, u)
    {
      if u < |s.threads| { assert ThreadOk(s, u); }
    }
    var b := n * ENTRIES_IN_PAGE;
    if b in s.owner {
      assert OwnerOk(s, b);
      DivModIs(b, ENTRIES_IN_PAGE, n, 0);
    }
  }

  lemma PageStart(n: nat, bs: nat)
    requires BufferSize(bs)
    ensures Aligned(n * ENTRIES_IN_PAGE, bs) && n * ENTRIES_IN_PAGE / ENTRIES_IN_PAGE == n
  {
    var k := BlocksInPage(bs);
    PlaceOfBlock(n, 0, bs, k);
  }

  ghost predicate AddsNow(s: State, s': State, t: nat, n: nat) {
    && MoreOwned(s, s', t, n * ENTRIES_IN_PAGE) && n == s.greatest + 1 < |s.pages| && s.pages[n] == Null
    && s'.pages == s.pages[n := Page] && s'.greatest == s.greatest
    && s'.threads[t] == Thread(StoreNext(n), s.threads[t].buffer)
    && !s.threads[t].pc.Holding?
  }

  lemma AddPageKept(s: State, t: nat, ch: Choice, s': State)
    requires Inv(s) && t < |s.threads| && ThreadOk(s, t) && s.threads[t].pc.AddPage? && s' == Step(s, t, ch)
    ensures Kept(s, s', t)
  {
    hide Inv, BufferOk, PageFull, PagesOk;
    InvShared(s);
    var pc := s.threads[t].pc;
    var n := pc.page + 1;
    if s.pages[n].Null? {
      OnlyNextIsNull(s, n);
      NoOtherAdder(s, n);
      PageStart(n, s.bs);
      AddsPages(s, s', t, n);
      AddsOwner(s, s', t, n);
      AddsBuffer(s, s', t, n);
    } else {
      PrivateKeeps(s, s', t);
      BufferSame(s, s', t);
      assert Scanned(s', pc.page, pc.from, 0);
    }
  }

  lemma InvShared(s: State)
    requires Inv(s)
    ensures Shared(s)
  {
  }

  lemma OnlyNextIsNull(s: State, n: nat)
    requires PagesOk(s) && n < |s.pages| && n <= s.greatest + 1 && s.pages[n] == Null
    ensures n == s.greatest + 1
  {
  }

  lemma AddsPages(s: State, s': State, t: nat, n: nat)
    requires AddsNow(s, s', t, n) && PagesOk(s) && forall u: nat :: !Adding(s, u)
    ensures PagesOk(s')
  {
    FullMonotone(s, s');
    assert Adding(s', t);
    forall u: nat
      ensures Adding(s', u) ==> u == t
    {
      assert !Adding(s, u);
    }
  }

  lemma AddsOwner(s: State, s': State, t: nat, n: nat)
    requires AddsNow(s, s', t, n) && Shared(s) && (forall u: nat :: !Adding(s, u)) && Aligned(n * ENTRIES_IN_PAGE, s.bs)
    ensures Evolves(s, s', t)
    ensures forall b :: b in s'.owner ==> OwnerOk(s', b)
    ensures forall y :: y in s'.published ==> PublishedOk(s', y)
  {
    hide PagesOk;
    forall b | b in s'.owner
      ensures OwnerOk(s', b)
    {
      if b != n * ENTRIES_IN_PAGE { assert OwnerOk(s, b); }
    }
    forall y | y in s'.published
      ensures PublishedOk(s', y)
    {
      assert PublishedOk(s, y);
    }
  }

  lemma AddsBuffer(s: State, s': State, t: nat, n: nat)
    requires AddsNow(s, s', t, n) && s.bs > 0 && BufferOk(s, t) && s.threads[t].pc.AddPage? && PcOk(s, t)
    requires s.threads[t].pc.page == s.greatest
    ensures ThreadOk(s', t)
  {
    FullMonotone(s, s');
  }

  // ---- the page is announced ----

  lemma StoreNextKept(s: State, t: nat, ch: Choice, s': State)
    requires Shared(s) && t < |s.threads| && ThreadOk(s, t) && s.threads[t].pc.StoreNext? && s' == Step(s, t, ch)
    ensures Kept(s, s', t)
  {
    hide BufferOk, PagesOk;
    StorePages(s, t, ch, s');
    StoreBuffer(s, t, ch, s');
    forall b | b in s'.owner
      ensures OwnerOk(s', b)
    {
      assert OwnerOk(s, b);
    }
    forall y | y in s'.published
      ensures PublishedOk(s', y)
    {
      assert PublishedOk(s, y);
    }
  }

  lemma StorePages(s: State, t: nat, ch: Choice, s': State)
    requires s.bs > 0 && PagesOk(s) && t < |s.threads| && PcOk(s, t) && s.threads[t].pc.StoreNext?
    requires s' == Step(s, t, ch)
    ensures PagesOk(s') && PcOk(s', t)
    ensures forall u: nat :: Adding(s', u) <==> Adding(s, u)
  {
    FullMonotone(s, s');
    assert forall u: nat :: Adding(s', u) <==> Adding(s, u);
  }

  lemma StoreBuffer(s: State, t: nat, ch: Choice, s': State)
    requires s.bs > 0 && t < |s.threads| && BufferOk(s, t) && s.threads[t].pc.StoreNext? && s' == Step(s, t, ch)
    ensures BufferOk(s', t)
  {
    forall x | Safe(s') && Has(s', t, x)
      ensures x !in s'.published
    {
      assert Has(s, t, x);
    }
  }

  lemma BumpKept(s: State, t: nat, ch: Choice, s': State)
    requires Shared(s) && t < |s.threads| && ThreadOk(s, t) && s.threads[t].pc.Bump? && s' == Step(s, t, ch)
    ensures Kept(s, s', t)
  {
    hide BufferOk, PagesOk;
    var n := s.threads[t].pc.new_;
    PageStart(n, s.bs);
    BumpPages(s, t, ch, s');
    BumpBuffer(s, t, ch, s');
    forall b | b in s'.owner
      ensures OwnerOk(s', b)
    {
      assert OwnerOk(s, b);
      if b == n * ENTRIES_IN_PAGE { assert b / ENTRIES_IN_PAGE == n; }
    }
    forall y | y in s'.published
      ensures PublishedOk(s', y)
    {
      assert PublishedOk(s, y);
    }
  }

  lemma BumpPages(s: State, t: nat, ch: Choice, s': State)
    requires s.bs > 0 && PagesOk(s) && t < |s.threads| && PcOk(s, t) && s.threads[t].pc.Bump? && s' == Step(s, t, ch)
    ensures PagesOk(s')
  {
    FullMonotone(s, s');
    assert Adding(s, t);
    assert forall u: nat :: Adding(s', u) ==> Adding(s, u) && u != t;
  }

  lemma BumpBuffer(s: State, t: nat, ch: Choice, s': State)
    requires Shared(s) && t < |s.threads| && PcOk(s, t) && s.threads[t].pc.Bump? && s' == Step(s, t, ch)
    requires Aligned(s.threads[t].pc.new_ * ENTRIES_IN_PAGE, s.bs)
    requires s.threads[t].pc.new_ * ENTRIES_IN_PAGE / ENTRIES_IN_PAGE == s.threads[t].pc.new_
    ensures BufferOk(s', t)
  {
    var b := s.threads[t].pc.new_ * ENTRIES_IN_PAGE;
    BlockIs(b, s.bs, b);
    forall x | Safe(s') && Has(s', t, x)
      ensures x !in s'.published
    {
      assert x in s.published ==> PublishedOk(s, x);
    }
  }

  // ---- an entry is published or put back ----

  lemma HoldingKept(s: State, t: nat, ch: Choice, s': State)
    requires Shared(s) && t < |s.threads| && ThreadOk(s, t) && s.threads[t].pc.Holding? && s' == Step(s, t, ch)
    ensures Kept(s, s', t)
  {
    hide PagesOk, Shared, BufferOk, PublishedOk;
    GreatestPage(s);
    HoldingEvolves(s, t, ch, s');
    HoldingBuffer(s, t, ch, s');
    HeldUnpublished(s, t);
    HoldingShared(s, t, ch, s');
  }

  lemma HoldingEvolves(s: State, t: nat, ch: Choice, s': State)
    requires t < |s.threads| && s.bs > 0 && BufferOk(s, t) && s.threads[t].pc.Holding? && s' == Step(s, t, ch)
    ensures s.threads[t].buffer.used > 0 && Evolves(s, s', t) && PcOk(s', t)
  {
    assert Has(s, t, Popped(s, t));
  }

  lemma HoldingBuffer(s: State, t: nat, ch: Choice, s': State)
    requires t < |s.threads| && s.bs > 0 && BufferOk(s, t) && s.threads[t].pc.Holding? && s' == Step(s, t, ch)
    ensures BufferOk(s', t)
  {
    forall y | Safe(s') && Has(s', t, y)
      ensures y !in s'.published
    {
      assert Has(s, t, y);
    }
  }

  // The entry that a thread holds may be published.
  lemma HeldUnpublished(s: State, t: nat)
    requires Shared(s) && t < |s.threads| && BufferOk(s, t) && s.threads[t].pc.Holding?
    ensures s.threads[t].buffer.used > 0 && PublishedOk(s, Popped(s, t))
  {
    hide PagesOk;
    var x := Popped(s, t);
    assert Has(s, t, x);
    if Safe(s) { InBlock(s, t, x); }
  }

  lemma HoldingShared(s: State, t: nat, ch: Choice, s': State)
    requires Shared(s) && t < |s.threads| && s.threads[t].pc.Holding? && s.threads[t].buffer.used > 0
    requires s' == Step(s, t, ch)
    requires PublishedOk(s, Popped(s, t))
    ensures Shared(s')
  {
    FullMonotone(s, s');
    assert forall u: nat :: Adding(s', u) <==> Adding(s, u);
    forall b | b in s'.owner
      ensures OwnerOk(s', b)
    {
      assert OwnerOk(s, b);
    }
    forall y | y in s'.published
      ensures PublishedOk(s', y)
    {
      assert PublishedOk(s, y);
    }
  }

  // ---- every step ----

  lemma OwnKept(s: State, t: nat, ch: Choice, s': State)
    requires Inv(s) && s.bs > 0 && t < |s.threads| && s' == Step(s, t, ch)
    ensures Kept(s, s', t)
  {
    hide Shared, ThreadOk, Kept, Step;
    assert ThreadOk(s, t);
    match s.threads[t].pc {
      case Out =>
        if s.threads[t].buffer.used == s.threads[t].buffer.size {
          ScanBegins(s, t, ch, s');
        } else {
          PopKept(s, t, ch, s');
        }
      case Scan(_, _, _) => ScanKept(s, t, ch, s');
      case Try(_, _, _) => TryKept(s, t, ch, s');
      case Recheck(_, _) => RecheckKept(s, t, ch, s');
      case AddPage(_, _) => AddPageKept(s, t, ch, s');
      case StoreNext(_) => StoreNextKept(s, t, ch, s');
      case Bump(_) => BumpKept(s, t, ch, s');
      case Holding => HoldingKept(s, t, ch, s');
      case MustGrow => GrowEnds(s, t, ch, s');
    }
  }

  lemma StepInv(s: State, t: nat, ch: Choice, s': State)
    requires Inv(s) && s.bs > 0 && t < |s.threads| && s' == Step(s, t, ch)
    ensures Inv(s') && Evolves(s, s', t)
  {
    hide Shared, ThreadOk, Step;
    OwnKept(s, t, ch, s');
    forall u | 0 <= u < |s'.threads|
      ensures ThreadOk(s', u)
    {
      if u != t { OthersOk(s, s', t, u); }
    }
  }

  // A new generation keeps the pages, the reservations and the buffers.
  lemma RegeneratesInv(s: State, s': State)
    requires Inv(s) && Regenerates(s, s')
    ensures Inv(s')
  {
    FullMonotone(s, s');
    assert forall u: nat :: !Adding(s, u) && !Adding(s', u);
    forall b | b in s'.owner
      ensures OwnerOk(s', b)
    {
      assert OwnerOk(s, b);
    }
    forall y | y in s'.published
      ensures PublishedOk(s', y)
    {
      assert PublishedOk(s, y);
    }
    forall u | 0 <= u < |s'.threads|
      ensures ThreadOk(s', u)
    {
      assert ThreadOk(s, u);
      forall x | Safe(s') && Has(s', u, x)
        ensures x !in s'.published
      {
        assert Has(s, u, x);
      }
    }
  }

  lemma InitInv(s: State)
    requires Init(s)
    ensures Inv(s)
  {
    hide BufferOk, PublishedOk, PageFull;
    assert forall u: nat :: !Adding(s, u);
    QuoRemUnique(0, s.bs, 0, 0);
    InitOwners(s);
    InitPublished(s);
    forall u | 0 <= u < |s.threads|
      ensures BufferOk(s, u)
    {
      InitBuffer(s, u);
    }
  }

  lemma InitOwners(s: State)
    requires Init(s)
    ensures forall b :: b in s.owner ==> OwnerOk(s, b)
  {
    QuoRemUnique(0, s.bs, 0, 0);
    forall b | b in s.owner
      ensures OwnerOk(s, b)
    {
      PagesGrow(b, 2 * s.len);
    }
  }

  lemma InitPublished(s: State)
    requires Init(s)
    ensures forall x :: x in s.published ==> PublishedOk(s, x)
  {
    forall x | x in s.published
      ensures PublishedOk(s, x)
    {
      BlockInPage(x, s.bs);
      PagesGrow(x, 2 * s.len);
    }
  }

  lemma InitBuffer(s: State, u: nat)
    requires Init(s) && u < |s.threads|
    ensures BufferOk(s, u)
  {
    if u > 0 {
    } else if InitEmpty(s) {
      if s.bs > 1 {
        BlockIs(1, s.bs, 0);
      }
    } else {
      BlockInPage(s.len + 1, s.bs);
      PagesGrow(s.len + 1, 2 * s.len);
    }
  }

  lemma PagesGrow(x: nat, y: nat)
    requires x <= y
    ensures x / ENTRIES_IN_PAGE <= y / ENTRIES_IN_PAGE
  {
  }

  lemma SamePageOffset(x: nat, bs: nat)
    requires BufferSize(bs) && Aligned(x, bs)
    ensures Aligned(x % ENTRIES_IN_PAGE, bs)
  {
    var k := BlocksInPage(bs);
    QuoRem(x, bs);
    var p, i := BlockPlace(Quo(x, bs), bs, k);
    DivModIs(x, ENTRIES_IN_PAGE, p, i * bs);
    QuoRemUnique(i * bs, bs, i, 0);
  }

  lemma SameDict(s: State, s': State, t: nat)
    requires Evolves(s, s', t)
    ensures s'.bs == s.bs && s'.len == s.len
  {
  }

  lemma SameArray(s: State, s': State)
    requires Regenerates(s, s')
    ensures s'.bs == s.bs && s'.len == s.len
  {
  }

  lemma {:induction false} RunInv(run: seq<State>, i: nat)
    requires Run(run) && i < |run|
    ensures Inv(run[i]) && run[i].bs == run[0].bs && run[i].len == run[0].len
  {
    hide Inv, Step, Init, Regenerates, Evolves;
    if i == 0 {
      InitInv(run[0]);
    } else {
      RunInv(run, i - 1);
      assert Next(run[i - 1], run[i - 1 + 1]);
      if Regenerates(run[i - 1], run[i]) {
        RegeneratesInv(run[i - 1], run[i]);
        SameArray(run[i - 1], run[i]);
      } else {
        var t: nat, ch :| t < |run[i - 1].threads| && run[i] == Step(run[i - 1], t, ch);
        StepInv(run[i - 1], t, ch, run[i]);
        SameDict(run[i - 1], run[i], t);
      }
    }
  }

  // ---- what the allocator promises ----

  // No entry is in two buffers, and none that a thread holds or may still get was published.
  ghost predicate EntriesApart(s: State) {
    && (forall u: nat, v: nat, x :: Has(s, u, x) && Has(s, v, x) ==> u == v)
    && (forall u: nat, x :: Has(s, u, x) ==> x !in s.published)
  }

  // Over all runs and generations: no entry is in two reservation buffers, none that a thread holds or may
  // still get was ever published (so an entry that is put back is not reachable), and each lies in the
  // pages, above entry 0.
  lemma EntriesExclusive(run: seq<State>, i: nat)
    requires Run(run) && i < |run| && run[0].bs > 0 && Safe(run[0])
    ensures EntriesApart(run[i])
    ensures forall u: nat, x: nat :: Has(run[i], u, x) ==> 1 <= x < ENTRIES_IN_PAGE * |run[i].pages|
  {
    hide Run;
    RunInv(run, i);
    var s := run[i];
    forall u: nat, x: nat | Has(s, u, x)
      ensures x !in s.published && 1 <= x < ENTRIES_IN_PAGE * |s.pages|
    {
      assert ThreadOk(s, u);
      InBlock(s, u, x);
      DivModParts(x, ENTRIES_IN_PAGE);
    }
    forall u: nat, v: nat, x: nat | Has(s, u, x) && Has(s, v, x)
      ensures u == v
    {
      assert ThreadOk(s, u) && ThreadOk(s, v);
      Exclusive(s, u, v, x);
    }
  }

  // ---- dicts with initial items ----

  ghost predicate AlwaysApart(s: State) {
    forall run, i: nat :: Path(run) && run[0] == s && i < |run| ==> EntriesApart(run[i])
  }

  // From initial items, reservations are exclusive in every run, unless the first buffer is an unflagged
  // block on the last page allocated: then, given a second thread, some run takes it twice.
  lemma InitialExclusiveIff(s: State)
    requires InitFrom(s) && |s.threads| > 1
    ensures AlwaysApart(s) <==> !FirstBlockShared(s.len, s.bs)
    ensures AlwaysApart(s) <==> !(Aligned(s.len + 1, s.bs) && (s.len < 64 || s.len == 127))
  {
    FirstBlockSharedIff(s.len, s.bs);
    if FirstBlockShared(s.len, s.bs) {
      InitialTakenTwice(s);
    } else {
      forall run, i: nat | Path(run) && run[0] == s && i < |run|
        ensures EntriesApart(run[i])
      {
        EntriesExclusive(run, i);
      }
    }
  }

  // What that means for the number of items.
  lemma FirstBlockSharedIff(len: nat, bs: nat)
    requires bs > 0
    ensures FirstBlockShared(len, bs) <==> 0 < len && Aligned(len + 1, bs) && (len < 64 || len == 127)
  {
  }

  // Thread 1 scans from the first buffer's block, finds its flag not set and takes it.
  lemma InitialTakenTwice(s: State)
    requires InitFrom(s) && FirstBlockShared(s.len, s.bs) && |s.threads| > 1
    ensures !AlwaysApart(s)
  {
    hide InitFrom, FirstPages, Init, EntriesApart, Has, Step;
    var ch := Choice(s.len + 1, true);
    FirstBlockPosition(s);
    FirstSteps(s, ch);
    var s1 := Step(s, 1, ch);
    var s2 := Step(s1, 1, ch);
    var s3 := Step(s2, 1, ch);
    var run := [s, s1, s2, s3];
    assert Next(s, s1) && Next(s1, s2) && Next(s2, s3);
    assert Path(run);
    TwoHave(s3, s.len + 1);
    assert !EntriesApart(run[3]);
  }

  lemma TwoHave(s: State, x: nat)
    requires Has(s, 0, x) && Has(s, 1, x)
    ensures !EntriesApart(s)
  {
  }

  lemma FirstBlockPosition(s: State)
    requires InitFrom(s) && FirstBlockShared(s.len, s.bs)
    ensures s.bs > 0 && InsertPosition(s.len + 1, s.bs) == (s.len + 1) % ENTRIES_IN_PAGE
  {
    SamePageOffset(s.len + 1, s.bs);
  }

  // What thread 1 does when its scan begins at the first buffer's block.
  lemma FirstSteps(s: State, ch: Choice)
    requires InitFrom(s) && FirstBlockShared(s.len, s.bs) && |s.threads| > 1
    requires InsertPosition(ch.hash, s.bs) == (s.len + 1) % ENTRIES_IN_PAGE
    ensures s.bs > 0
    ensures var s1 := Step(s, 1, ch);
            && s1.bs > 0 && |s1.threads| > 1
            && var s2 := Step(s1, 1, ch);
               && s2.bs > 0 && |s2.threads| > 1
               && var s3 := Step(s2, 1, ch);
                  && s1.threads[1].pc.Scan? && s2.threads[1].pc.Try?
                  && s3 == Take(s.(owner := s.owner[s.len + 1 := 1]), 1, s.len + 1)
                  && Has(s3, 0, s.len + 1) && Has(s3, 1, s.len + 1)
  {
    var r := (s.len + 1) % ENTRIES_IN_PAGE;
    DivModParts(s.len + 1, ENTRIES_IN_PAGE);
    assert Location(s.greatest, r, 0) == s.len + 1;
    assert s.len + 1 !in s.owner;
    var s1 := Step(s, 1, ch);
    assert s1.threads[1].pc == Scan(s.greatest, r, 0);
    var s2 := Step(s1, 1, ch);
    assert s2.threads[1].pc == Try(s.greatest, r, 0);
    assert s2.threads == s.threads[1 := s2.threads[1]];
    var s3 := Step(s2, 1, ch);
    assert s3.threads == s.threads[1 := s3.threads[1]];
  }

  // No location is published twice, and entry 0 never.
  lemma PublishedOnce(run: seq<State>, i: nat, t: nat)
    requires Run(run) && i < |run| && t < |run[i].threads| && run[i].threads[t].pc.Holding?
    requires run[0].bs > 0 && Safe(run[0])
    ensures run[i].threads[t].buffer.used > 0
    ensures Popped(run[i], t) !in run[i].published && Popped(run[i], t) != 0 && 0 !in run[i].published
  {
    hide Run;
    RunInv(run, i);
    assert ThreadOk(run[i], t);
    assert Has(run[i], t, Popped(run[i], t));
    assert PublishedOk(run[i], 0) ==> false;
  }

  // The page array: every page up to the greatest is set, and the next cell is NULL or the one page being
  // added, never uninitialised.
  lemma PageArray(run: seq<State>, i: nat)
    requires Run(run) && i < |run|
    ensures var s := run[i];
            && s.greatest < |s.pages|
            && (forall p :: 0 <= p <= s.greatest ==> s.pages[p] == Page)
            && (s.greatest + 1 < |s.pages| && s.pages[s.greatest + 1] != Null ==>
                  && s.pages[s.greatest + 1] == Page
                  && exists u: nat :: Adding(s, u) && forall v: nat :: Adding(s, v) ==> v == u)
  {
    hide Run, ThreadOk;
    RunInv(run, i);
  }

  // The CAS on greatest_allocated_page never fails.
  lemma BumpSucceeds(run: seq<State>, i: nat, t: nat, n: nat)
    requires Run(run) && i < |run| && t < |run[i].threads| && run[i].threads[t].pc == Bump(n)
    ensures run[i].greatest + 1 == n
  {
    hide Run, BufferOk;
    RunInv(run, i);
    assert ThreadOk(run[i], t);
  }

  // A table is only told to grow when every block of every page is reserved, from the last page of the
  // initial dict on.
  lemma GrowsOnlyWhenFull(run: seq<State>, i: nat, t: nat, x: nat)
    requires Run(run) && i < |run| && t < |run[i].threads| && run[i].threads[t].pc.MustGrow?
    requires ENTRIES_IN_PAGE * FirstPage(run[i].len) <= x < ENTRIES_IN_PAGE * |run[i].pages| && run[i].bs > 0
    requires Aligned(x, run[i].bs)
    ensures x in run[i].owner
  {
    hide Run, BufferOk;
    RunInv(run, i);
    assert ThreadOk(run[i], t);
    DivModParts(x, ENTRIES_IN_PAGE);
    assert PageFull(run[i], x / ENTRIES_IN_PAGE);
  }
}
