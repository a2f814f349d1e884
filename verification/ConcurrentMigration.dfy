// common_resize and migrate_nodes run by any number of participants at once (resize.c:179-213, 333-446).
// A step is one access to shared memory: the cursor, a slot of the new index, a participant's state or
// the completion event. The old index is frozen, so reading it is not a step of its own.
module ConcurrentMigration {
  import opened Arith
  import opened NodeCodec
  import opened ProbeIndex
  import opened CellLayout
  import opened Migration
  import opened BlockMigrate

  // Where a participant is inside block_wise_migrate. `trailing` tells its second clear and loop.
  datatype Work =
    | Clear(trailing: bool, k: nat)
    | Move(trailing: bool, i: nat)
    | Probe(trailing: bool, i: nat, distance: nat)
    | Write(trailing: bool, i: nat, distance: nat)
    | Finished

  datatype Pc =
    | Outside
    | Entering                       // saw the event unset, about to CAS its state 0 -> 1
    | Claiming                       // about to fetch_add the cursor
    | Busy(start: nat, work: Work)
    | Leaving                        // about to CAS its state 1 -> 2
    | Scanning(next: nat)            // nodes_migration_done, about to read participants[next]
    | Setting                        // about to set node_migration_done
    | Waiting
    | Gone

  datatype Participant = Participant(pc: Pc, state: nat, migrated: nat)

  // `owner` maps each claimed block to its claimant and `moved` holds the old slots whose nodes have
  // been moved; both are bookkeeping that no step reads.
  datatype State = State(new_: seq<Slot>, cursor: nat, doneEvent: bool, ps: seq<Participant>,
                         owner: map<nat, nat>, moved: set<nat>)

  // ---- steps ----

  function EndOf(g: Generation, block: nat, start: nat): nat { Min(start + block, g.Size()) }

  function At(s: State, w: nat, p: Participant): State
    requires w < |s.ps|
  {
    s.(ps := s.ps[w := p])
  }

  function Goto(s: State, w: nat, pc: Pc): State
    requires w < |s.ps|
  {
    At(s, w, s.ps[w].(pc := pc))
  }

  // atomic_fetch_add on the cursor, and the search for the block's first empty slot.
  function Claim(g: Generation, block: nat, s: State, w: nat): (s': State)
    requires w < |s.ps|
    ensures |s'.new_| == |s.new_| && |s'.ps| == |s.ps|
  {
    var start := s.cursor;
    var s' := s.(cursor := s.cursor + block);
    if start >= g.Size() then Goto(s', w, Leaving)
    else
      var f := NextEmpty(g, start);
      Goto(s'.(owner := s.owner[start := w]), w,
           if f >= EndOf(g, block, start) then Claiming else Busy(start, Clear(false, 2 * f)))
  }

  function AfterMoves(g: Generation, block: nat, start: nat, trailing: bool): Pc
  {
    var end := EndOf(g, block, start);
    if !trailing && NextEmpty(g, end) > end then Busy(start, Clear(true, 2 * end)) else Claiming
  }

  function BlockFirst(g: Generation, start: nat): nat {
    if start <= g.Size() then NextEmpty(g, start) else start
  }

  function ClearStop(g: Generation, block: nat, start: nat, trailing: bool): nat {
    var end := EndOf(g, block, start);
    if trailing then 2 * NextEmpty(g, end) else 2 * (end + 1)
  }

  function MoveStop(g: Generation, block: nat, start: nat, trailing: bool): nat {
    var end := EndOf(g, block, start);
    if trailing then NextEmpty(g, end) else end
  }

  // (d0 + distance) & (SIZE_OF(new_meta) - 1)
  function ProbedSlot(g: Generation, i: nat, d: nat): (p: nat)
    requires LogSize(g.log) && LogSize(g.log + 1) && i < 2 * g.Size() && g.Laps()[i].Node?
    ensures p < 2 * g.Size()
  {
    SlotAt(MigrateNodeD0(g.Laps()[i], i, g.log, g.rehash), d, 2 * g.Size())
  }

  function SlotAt(d0: int, d: nat, n: nat): (p: nat)
    requires n > 0
    ensures p < n
  {
    if d0 >= 0 then Rem(d0 + d, n) else 0
  }

  predicate Sized(g: Generation, s: State, w: nat) {
    LogSize(g.log) && LogSize(g.log + 1) && |s.new_| == 2 * g.Size() > 0 && w < |s.ps|
  }

  // One step of initialize_in_new_meta.
  function ClearStep(g: Generation, block: nat, s: State, w: nat, start: nat, t: bool, k: nat): (s': State)
    requires Sized(g, s, w)
    ensures Sized(g, s', w) && |s'.ps| == |s.ps|
  {
    if k >= ClearStop(g, block, start, t)
    then Goto(s, w, Busy(start, Move(t, if t then EndOf(g, block, start) else BlockFirst(g, start))))
    else Goto(s.(new_ := s.new_[Rem(k, 2 * g.Size()) := Empty]), w, Busy(start, Clear(t, k + 1)))
  }

  // One round of block_wise_migrate's two loops.
  function MoveStep(g: Generation, block: nat, s: State, w: nat, start: nat, t: bool, i: nat): (s': State)
    requires Sized(g, s, w)
    ensures Sized(g, s', w) && |s'.ps| == |s.ps|
  {
    if i >= MoveStop(g, block, start, t) then Goto(s, w, AfterMoves(g, block, start, t))
    else if i < 2 * g.Size() && g.Laps()[i].Node? then Goto(s, w, Busy(start, Probe(t, i, 0)))
    else Goto(s, w, Busy(start, Move(t, i + 1)))
  }

  // migrate_node reads a slot of the new index ...
  function ProbeStep(g: Generation, s: State, w: nat, start: nat, t: bool, i: nat, d: nat): (s': State)
    requires Sized(g, s, w)
    ensures Sized(g, s', w) && |s'.ps| == |s.ps|
  {
    if d >= 2 * g.Size() || i >= 2 * g.Size() || !g.Laps()[i].Node? then Goto(s, w, Busy(start, Move(t, i + 1)))
    else if s.new_[ProbedSlot(g, i, d)].Empty? then Goto(s, w, Busy(start, Write(t, i, d)))
    else Goto(s, w, Busy(start, Probe(t, i, d + 1)))
  }

  // ... and writes it in a separate access.
  function WriteStep(g: Generation, s: State, w: nat, start: nat, t: bool, i: nat, d: nat): (s': State)
    requires Sized(g, s, w)
    ensures Sized(g, s', w) && |s'.ps| == |s.ps|
  {
    if i >= 2 * g.Size() || !g.Laps()[i].Node? then s
    else
      var x := g.Laps()[i];
      At(s.(new_ := s.new_[ProbedSlot(g, i, d) := Stored(Node(x.index, x.tag, d), g.log + 1)],
            moved := s.moved + {Wrap(i, g.Size())}),
         w, s.ps[w].(pc := Busy(start, Move(t, i + 1)), migrated := s.ps[w].migrated + 1))
  }

  function WorkStep(g: Generation, block: nat, s: State, w: nat, start: nat, work: Work): (s': State)
    requires Sized(g, s, w)
    ensures Sized(g, s', w) && |s'.ps| == |s.ps|
  {
    match work
    case Clear(t, k) => ClearStep(g, block, s, w, start, t, k)
    case Move(t, i) => MoveStep(g, block, s, w, start, t, i)
    case Probe(t, i, d) => ProbeStep(g, s, w, start, t, i, d)
    case Write(t, i, d) => WriteStep(g, s, w, start, t, i, d)
    case Finished => s
  }

  predicate Enabled(s: State, w: nat)
    requires w < |s.ps|
  {
    var pc := s.ps[w].pc;
    !pc.Gone? && (pc.Waiting? ==> s.doneEvent)
  }

  function Step(g: Generation, block: nat, s: State, w: nat): (s': State)
    requires Sized(g, s, w)
    ensures Sized(g, s', w) && |s'.ps| == |s.ps|
  {
    var p := s.ps[w];
    match p.pc
    case Outside => Goto(s, w, if s.doneEvent then Gone else Entering)
    case Entering => At(s, w, p.(pc := Claiming, state := 1))
    case Claiming => Claim(g, block, s, w)
    case Busy(start, work) => WorkStep(g, block, s, w, start, work)
    case Leaving => At(s, w, p.(pc := Scanning(0), state := 2))
    case Scanning(a) =>
      if a >= |s.ps| then Goto(s, w, Setting)
      else if s.ps[a].state == 1 then Goto(s, w, Waiting)
      else Goto(s, w, Scanning(a + 1))
    case Setting => Goto(s.(doneEvent := true), w, Waiting)
    case Waiting => Goto(s, w, Gone)
    case Gone => s
  }

  // The new index is uninitialised: its slots hold anything.
  predicate Init(g: Generation, s: State) {
    && |s.new_| == 2 * g.Size() && s.cursor == 0 && !s.doneEvent
    && s.owner == map[] && s.moved == {}
    && forall w :: 0 <= w < |s.ps| ==> s.ps[w] == Participant(Outside, 0, 0)
  }

  // ---- the invariant of the cells ----

  ghost predicate Cleared(new_: seq<Slot>, lo: nat, hi: nat)
    requires hi <= 2 * |new_|
  {
    forall q :: lo <= q < hi ==> new_[Wrap(q, |new_|)].Empty?
  }

  // Of the nodes at positions [f, j), exactly those before i have been moved.
  ghost predicate MovedUpTo(g: Generation, moved: set<nat>, f: nat, j: nat, i: nat)
    requires j <= 2 * g.Size()
  {
    forall k :: f <= k < j && g.Laps()[k].Node? ==> (Wrap(k, g.Size()) in moved <==> k < i)
  }

  ghost predicate MoveFits(g: Generation, new_: seq<Slot>, moved: set<nat>, start: nat, end: nat, trailing: bool,
      i: nat)
    requires g.Valid() && |new_| == 2 * g.Size() && start <= end <= g.Size()
  {
    var f, j := NextEmpty(g, start), NextEmpty(g, end);
    && f < end && f <= i <= 2 * g.Size() && MovedUpTo(g, moved, f, j, i)
    && (if trailing then end <= i <= j && end < j && Shows(new_, g, i, f, j)
        else i <= end && Shows(new_, g, i, f, end) && (j == end ==> Cleared(new_, 2 * end, 2 * end + 2)))
  }

  ghost predicate NodeDue(g: Generation, start: nat, end: nat, trailing: bool, i: nat)
    requires g.Valid() && start <= end <= g.Size()
  {
    i < (if trailing then NextEmpty(g, end) else end) && g.Laps()[i].Node? && Bounded(Moves(g)) && Moves(g)[i].Put?
  }

  ghost predicate WorkFits(g: Generation, new_: seq<Slot>, moved: set<nat>, start: nat, end: nat, work: Work)
    requires g.Valid() && |new_| == 2 * g.Size() && start <= end <= g.Size()
  {
    var f, j := NextEmpty(g, start), NextEmpty(g, end);
    match work
    case Clear(false, k) =>
      f < end && 2 * f <= k <= 2 * end + 2 && Cleared(new_, 2 * f, k) && MovedUpTo(g, moved, f, j, f)
    case Clear(true, k) =>
      && f < end < j && 2 * end <= k <= 2 * j && Shows(new_, g, end, f, end) && Cleared(new_, 2 * end, k)
      && MovedUpTo(g, moved, f, j, end)
    case Move(t, i) => MoveFits(g, new_, moved, start, end, t, i)
    case Probe(t, i, d) =>
      && MoveFits(g, new_, moved, start, end, t, i) && NodeDue(g, start, end, t, i)
      && Moves(g)[i].home + d <= Target(Moves(g), i)
    case Write(t, i, d) =>
      && MoveFits(g, new_, moved, start, end, t, i) && NodeDue(g, start, end, t, i)
      && Moves(g)[i].home + d == Target(Moves(g), i)
    case Finished =>
      && (forall p :: 0 <= p < |new_| && InCells(p, g.Size(), f, Reach(g, start, end)) ==> new_[p] == NewIndex(g)[p])
      && MovedUpTo(g, moved, f, j, j)
  }

  // The part of the new index that a block call reads or writes.
  predicate Touches(g: Generation, start: nat, end: nat, p: nat)
    requires start <= end <= g.Size() && 0 < g.Size()
  {
    InCells(p, g.Size(), NextEmpty(g, start), Reach(g, start, end))
  }

  // ---- what two blocks share ----

  // Only cells of old empty slots are touched by two blocks.
  lemma SharedCellsEmpty(g: Generation, a: nat, b: nat, c: nat, d: nat, p: nat)
    requires g.Valid() && a <= b <= c <= d <= g.Size() && p < 2 * g.Size()
    requires Touches(g, a, b, p) && Touches(g, c, d, p)
    ensures g.index[p / 2].Empty?
  {
    BlockRange(g, a, b);
    BlockRange(g, b, c);
    BlockRange(g, c, d);
    var n := g.Size();
    assert g.Laps()[NextEmpty(g, b)] == g.index[Wrap(NextEmpty(g, b), n)];
    assert g.Laps()[NextEmpty(g, d)] == g.index[Wrap(NextEmpty(g, d), n)];
    assert g.Laps()[NextEmpty(g, 0)] == g.index[NextEmpty(g, 0)];
  }

  // The cell of an old empty slot is empty at every stage.
  lemma EmptyCell(g: Generation, i: nat, q: nat)
    requires g.Valid() && i <= 2 * g.Size() && 2 * NextEmpty(g, 0) <= q < 4 * g.Size()
    requires g.index[Wrap(q, 2 * g.Size()) / 2].Empty?
    ensures Cells(g, i)[q].Empty?
  {
    var e := q / 2;
    assert g.Laps()[e].Empty?;
    if i <= e {
      MovesFacts(g);
      Frontier(Moves(g), i);
    } else {
      EmptySeparates(g, e, i);
    }
  }

  // A write outside a block's cells, or clearing the cell of an old empty slot, does not disturb it.
  lemma ShowsStable(g: Generation, new_: seq<Slot>, i: nat, lo: nat, hi: nat, p: nat, v: Slot)
    requires g.Valid() && |new_| == 2 * g.Size() && i <= 2 * g.Size() && NextEmpty(g, 0) <= lo && hi <= 2 * g.Size()
    requires Shows(new_, g, i, lo, hi) && p < |new_|
    requires InCells(p, g.Size(), lo, hi) ==> v.Empty? && g.index[p / 2].Empty?
    ensures Shows(new_[p := v], g, i, lo, hi)
  {
    forall q | 2 * lo <= q < 2 * hi && Wrap(q, 2 * g.Size()) == p
      ensures v == Cells(g, i)[q]
    {
      EmptyCell(g, i, q);
    }
  }

  lemma ClearedStable(new_: seq<Slot>, n: nat, lo: nat, hi: nat, p: nat, v: Slot)
    requires |new_| == 2 * n && hi <= 2 * |new_| && Cleared(new_, lo, hi) && p < |new_|
    requires lo <= p < hi || lo <= p + 2 * n < hi ==> v.Empty?
    ensures Cleared(new_[p := v], lo, hi)
  {
  }

  lemma WorkStable(g: Generation, new_: seq<Slot>, moved: set<nat>, start: nat, end: nat, work: Work, p: nat, v: Slot)
    requires g.Valid() && |new_| == 2 * g.Size() && start <= end <= g.Size() && p < |new_|
    requires WorkFits(g, new_, moved, start, end, work)
    requires Touches(g, start, end, p) ==> v.Empty? && g.index[p / 2].Empty?
    ensures WorkFits(g, new_[p := v], moved, start, end, work)
  {
    BlockRange(g, start, end);
    var f, j := NextEmpty(g, start), NextEmpty(g, end);
    match work {
      case Clear(false, k) => ClearedStable(new_, g.Size(), 2 * f, k, p, v);
      case Clear(true, k) =>
        ShowsStable(g, new_, end, f, end, p, v);
        ClearedStable(new_, g.Size(), 2 * end, k, p, v);
      case Finished =>
        if Touches(g, start, end, p) {
          FinalEmpty(g, p);
        }
      case Move(t, i) => MoveStable(g, new_, moved, start, end, t, i, p, v);
      case Probe(t, i, _) => MoveStable(g, new_, moved, start, end, t, i, p, v);
      case Write(t, i, _) => MoveStable(g, new_, moved, start, end, t, i, p, v);
    }
  }

  lemma FinalEmpty(g: Generation, p: nat)
    requires g.Valid() && p < 2 * g.Size() && g.index[p / 2].Empty?
    ensures NewIndex(g)[p].Empty?
  {
    NextEmptyFacts(g);
    var q := if p < 2 * NextEmpty(g, 0) then p + 2 * g.Size() else p;
    EmptyCell(g, 2 * g.Size(), q);
  }

  lemma MoveStable(g: Generation, new_: seq<Slot>, moved: set<nat>, start: nat, end: nat, t: bool, i: nat, p: nat,
      v: Slot)
    requires g.Valid() && |new_| == 2 * g.Size() && start <= end <= g.Size() && p < |new_|
    requires MoveFits(g, new_, moved, start, end, t, i)
    requires Touches(g, start, end, p) ==> v.Empty? && g.index[p / 2].Empty?
    ensures MoveFits(g, new_[p := v], moved, start, end, t, i)
  {
    BlockRange(g, start, end);
    var f, j := NextEmpty(g, start), NextEmpty(g, end);
    if t {
      ShowsStable(g, new_, i, f, j, p, v);
    } else {
      ShowsStable(g, new_, i, f, end, p, v);
      if j == end {
        ClearedStable(new_, g.Size(), 2 * end, 2 * end + 2, p, v);
      }
    }
  }

  // ---- a step of a block call keeps the invariant of its own cells ----

  // A clearing step of the first clear,
  lemma FirstClear(g: Generation, new_: seq<Slot>, moved: set<nat>, start: nat, end: nat, k: nat)
    requires g.Valid() && |new_| == 2 * g.Size() && start < end <= g.Size() && k < 2 * (end + 1)
    requires WorkFits(g, new_, moved, start, end, Clear(false, k))
    ensures Touches(g, start, end, Rem(k, 2 * g.Size()))
    ensures WorkFits(g, new_[Rem(k, 2 * g.Size()) := Empty], moved, start, end, Clear(false, k + 1))
  {
    BlockRange(g, start, end);
    WrapIsRem(k, 2 * g.Size());
  }

  // and of the trailing clear.
  lemma TrailingClear(g: Generation, new_: seq<Slot>, moved: set<nat>, start: nat, end: nat, k: nat)
    requires g.Valid() && |new_| == 2 * g.Size() && start < end <= g.Size() && k < 2 * NextEmpty(g, end)
    requires WorkFits(g, new_, moved, start, end, Clear(true, k))
    ensures Touches(g, start, end, Rem(k, 2 * g.Size()))
    ensures WorkFits(g, new_[Rem(k, 2 * g.Size()) := Empty], moved, start, end, Clear(true, k + 1))
  {
    BlockRange(g, start, end);
    LapLength(g, NextEmpty(g, start), end);
    WrapIsRem(k, 2 * g.Size());
    WrapInjective(2 * g.Size(), 2 * NextEmpty(g, start), 2 * NextEmpty(g, end));
  }

  // The first clear ends where nothing is in place yet,
  lemma FirstClearEnds(g: Generation, new_: seq<Slot>, moved: set<nat>, start: nat, end: nat, k: nat)
    requires g.Valid() && |new_| == 2 * g.Size() && start < end <= g.Size() && k >= 2 * (end + 1)
    requires WorkFits(g, new_, moved, start, end, Clear(false, k))
    ensures WorkFits(g, new_, moved, start, end, Move(false, BlockFirst(g, start)))
  {
    BlockRange(g, start, end);
    MovesFacts(g);
    Frontier(Moves(g), NextEmpty(g, start));
  }

  // the trailing one where the block's own nodes are.
  lemma TrailingClearEnds(g: Generation, new_: seq<Slot>, moved: set<nat>, start: nat, end: nat, k: nat)
    requires g.Valid() && |new_| == 2 * g.Size() && start < end <= g.Size() && k >= 2 * NextEmpty(g, end)
    requires WorkFits(g, new_, moved, start, end, Clear(true, k))
    ensures WorkFits(g, new_, moved, start, end, Move(true, end))
  {
    BlockRange(g, start, end);
    ClearedTrailing(g, new_, NextEmpty(g, start), end, NextEmpty(g, end));
  }

  lemma ClearStepFits(g: Generation, new_: seq<Slot>, moved: set<nat>, block: nat, start: nat, t: bool, k: nat)
    requires g.Valid() && |new_| == 2 * g.Size() && start < g.Size() && block >= 1
    requires WorkFits(g, new_, moved, start, EndOf(g, block, start), Clear(t, k))
    ensures var end := EndOf(g, block, start);
            if k >= ClearStop(g, block, start, t) then
              WorkFits(g, new_, moved, start, end, Move(t, if t then end else BlockFirst(g, start)))
            else
              && Touches(g, start, end, Rem(k, 2 * g.Size()))
              && WorkFits(g, new_[Rem(k, 2 * g.Size()) := Empty], moved, start, end, Clear(t, k + 1))
  {
    hide WorkFits, Touches;
    var end := EndOf(g, block, start);
    if k < ClearStop(g, block, start, t) {
      if t { TrailingClear(g, new_, moved, start, end, k); } else { FirstClear(g, new_, moved, start, end, k); }
    } else {
      if t { TrailingClearEnds(g, new_, moved, start, end, k); } else { FirstClearEnds(g, new_, moved, start, end, k); }
    }
  }

  lemma ClearedTrailing(g: Generation, new_: seq<Slot>, f: nat, end: nat, j: nat)
    requires g.Valid() && |new_| == 2 * g.Size() && f <= end <= j <= 2 * g.Size()
    requires Shows(new_, g, end, f, end) && Cleared(new_, 2 * end, 2 * j)
    ensures Shows(new_, g, end, f, j)
  {
    MovesFacts(g);
    Frontier(Moves(g), end);
  }

  // At the end of a loop: on to the trailing cluster if there is one, else the block is finished.
  lemma MoveEnds(g: Generation, new_: seq<Slot>, moved: set<nat>, block: nat, start: nat, t: bool, i: nat)
    requires g.Valid() && |new_| == 2 * g.Size() && start < g.Size() && block >= 1
    requires MoveFits(g, new_, moved, start, EndOf(g, block, start), t, i) && i >= MoveStop(g, block, start, t)
    ensures var pc := AfterMoves(g, block, start, t);
            WorkFits(g, new_, moved, start, EndOf(g, block, start), if pc.Busy? then pc.work else Finished)
  {
    var end := EndOf(g, block, start);
    BlockRange(g, start, end);
    if t || NextEmpty(g, end) == end {
      BlockFinished(g, new_, moved, start, end, t);
    }
  }

  lemma MoveToProbe(g: Generation, new_: seq<Slot>, moved: set<nat>, start: nat, end: nat, t: bool, i: nat)
    requires g.Valid() && |new_| == 2 * g.Size() && start <= end <= g.Size()
    requires MoveFits(g, new_, moved, start, end, t, i)
    requires i < (if t then NextEmpty(g, end) else end) && g.Laps()[i].Node?
    ensures WorkFits(g, new_, moved, start, end, Probe(t, i, 0))
  {
    BlockRange(g, start, end);
    NodeCells(g, i, NextEmpty(g, start));
  }

  lemma SkipFits(g: Generation, new_: seq<Slot>, moved: set<nat>, start: nat, end: nat, t: bool, i: nat)
    requires g.Valid() && |new_| == 2 * g.Size() && start <= end <= g.Size()
    requires MoveFits(g, new_, moved, start, end, t, i)
    requires i < (if t then NextEmpty(g, end) else end) && !g.Laps()[i].Node?
    ensures MoveFits(g, new_, moved, start, end, t, i + 1)
  {
    ShowsSkip(new_, g, i, NextEmpty(g, start), if t then NextEmpty(g, end) else end);
  }

  lemma BlockFinished(g: Generation, new_: seq<Slot>, moved: set<nat>, start: nat, end: nat, t: bool)
    requires g.Valid() && |new_| == 2 * g.Size() && start <= end <= g.Size()
    requires MoveFits(g, new_, moved, start, end, t, NextEmpty(g, end))
    ensures WorkFits(g, new_, moved, start, end, Finished)
  {
    BlockRange(g, start, end);
    var f, j, n := NextEmpty(g, start), NextEmpty(g, end), g.Size();
    ShowsFinal(new_, g, f, j);
    forall p | 0 <= p < |new_| && Touches(g, start, end, p) && !InCells(p, n, f, j)
      ensures new_[p] == NewIndex(g)[p]
    {
      ClearedFinal(g, end, p);
      assert new_[Wrap(if 2 * end <= p < 2 * end + 2 then p else p + 2 * n, 2 * n)].Empty?;
    }
  }

  // The cell that a probe reads or a write fills lies inside the cluster's own cells, is initialised,
  // and never belongs to an old empty slot.
  // Between the home and the target of a node every old slot is taken.
  lemma ProbedTaken(g: Generation, i: nat, lo: nat, q: nat)
    requires g.Valid() && InLap(g, i) && lo <= i < 2 * g.Size() && g.Laps()[lo].Empty? && g.Laps()[i].Node?
    requires Bounded(Moves(g)) && Moves(g)[i].Put? && Moves(g)[i].home <= q <= Target(Moves(g), i)
    ensures 2 * lo + 2 <= q <= 2 * i + 1 < 4 * g.Size()
    ensures !g.index[Wrap(q, 2 * g.Size()) / 2].Empty?
  {
    NodeCells(g, i, lo);
    OldHomeFacts(g, i);
    assert OldHome(g, i) <= q / 2 <= i;
    assert !g.Laps()[q / 2].Empty?;
    HalfWrap(q, g.Size());
  }

  lemma ProbedCell(g: Generation, new_: seq<Slot>, moved: set<nat>, start: nat, end: nat, t: bool, i: nat, q: nat)
    requires g.Valid() && |new_| == 2 * g.Size() && start <= end <= g.Size()
    requires MoveFits(g, new_, moved, start, end, t, i) && NodeDue(g, start, end, t, i)
    requires Moves(g)[i].home <= q <= Target(Moves(g), i)
    ensures 2 * NextEmpty(g, start) + 2 <= q <= 2 * i + 1 < 4 * g.Size()
    ensures Touches(g, start, end, Wrap(q, 2 * g.Size()))
    ensures new_[Wrap(q, 2 * g.Size())] == Cells(g, i)[q]
    ensures !g.index[Wrap(q, 2 * g.Size()) / 2].Empty?
  {
    BlockRange(g, start, end);
    ProbedTaken(g, i, NextEmpty(g, start), q);
  }

  lemma HalfWrap(q: nat, n: nat)
    requires q < 4 * n
    ensures Wrap(q, 2 * n) / 2 == Wrap(q / 2, n)
  {
  }

  lemma ProbedSlotIs(g: Generation, i: nat, d: nat)
    requires g.Valid() && InLap(g, i) && i < 2 * g.Size() && g.Laps()[i].Node? && NewHome(g, i) + d < 4 * g.Size()
    ensures ProbedSlot(g, i, d) == Wrap(NewHome(g, i) + d, 2 * g.Size())
  {
    var d0 := MigrateNodeD0(g.Laps()[i], i, g.log, g.rehash);
    ShortcutHome(g, i, d0);
    SlotAtIs(NewHome(g, i), d0, d, 2 * g.Size());
  }

  lemma SlotAtIs(home: nat, d0: int, d: nat, n: nat)
    requires home + d < 2 * n && 0 <= d0 < 2 * n && Wrap(d0, n) == Wrap(home, n)
    ensures SlotAt(d0, d, n) == Wrap(home + d, n)
  {
    SamePosition(home, d0, d, n);
  }

  lemma ProbedSlotInCells(g: Generation, new_: seq<Slot>, moved: set<nat>, start: nat, end: nat, t: bool, i: nat,
      d: nat)
    requires g.Valid() && |new_| == 2 * g.Size() && start <= end <= g.Size()
    requires MoveFits(g, new_, moved, start, end, t, i) && NodeDue(g, start, end, t, i)
    requires Moves(g)[i].home + d <= Target(Moves(g), i)
    ensures d < 2 * g.Size() && Moves(g)[i].home + d < 4 * g.Size()
    ensures ProbedSlot(g, i, d) == Wrap(Moves(g)[i].home + d, 2 * g.Size())
  {
    BlockRange(g, start, end);
    LapLength(g, NextEmpty(g, start), end);
    NodeCells(g, i, NextEmpty(g, start));
    ProbedSlotIs(g, i, d);
  }

  // At distance d of the probe, whether the slot read is empty tells whether the target is reached.
  lemma ProbeReads(g: Generation, new_: seq<Slot>, moved: set<nat>, start: nat, end: nat, t: bool, i: nat, q: nat)
    requires g.Valid() && |new_| == 2 * g.Size() && start <= end <= g.Size()
    requires MoveFits(g, new_, moved, start, end, t, i) && NodeDue(g, start, end, t, i)
    requires Moves(g)[i].home <= q <= Target(Moves(g), i) && q < 4 * g.Size()
    ensures new_[Wrap(q, 2 * g.Size())].Empty? <==> q == Target(Moves(g), i)
  {
    ProbedCell(g, new_, moved, start, end, t, i, q);
    FirstEmptyIsFirst(Laid(Moves(g), i), Moves(g)[i].home, q);
  }

  lemma FirstEmptyIsFirst(s: seq<Slot>, q: nat, r: nat)
    requires q <= r < |s| && r <= FirstEmpty(s, q)
    ensures s[r].Empty? <==> r == FirstEmpty(s, q)
  {
  }

  lemma WriteStepFits(g: Generation, new_: seq<Slot>, moved: set<nat>, start: nat, end: nat, t: bool, i: nat, d: nat,
      p: nat)
    requires g.Valid() && |new_| == 2 * g.Size() && start <= end <= g.Size()
    requires WorkFits(g, new_, moved, start, end, Write(t, i, d))
    requires Moves(g)[i].home + d < 4 * g.Size() && p == Wrap(Moves(g)[i].home + d, 2 * g.Size())
    ensures var x := g.Laps()[i];
            WorkFits(g, new_[p := Stored(Node(x.index, x.tag, d), g.log + 1)],
                     moved + {Wrap(i, g.Size())}, start, end, Move(t, i + 1))
  {
    var x := g.Laps()[i];
    var v := Stored(Node(x.index, x.tag, d), g.log + 1);
    WriteShows(g, new_, start, end, t, i, d, p);
    WriteCleared(g, new_, moved, start, end, t, i, p, v);
    WriteMoved(g, moved, start, end, i);
    MoveFitsIntro(g, new_[p := v], moved + {Wrap(i, g.Size())}, start, end, t, i + 1);
  }

  lemma WriteCleared(g: Generation, new_: seq<Slot>, moved: set<nat>, start: nat, end: nat, t: bool, i: nat, p: nat,
      v: Slot)
    requires g.Valid() && |new_| == 2 * g.Size() && start <= end <= g.Size()
    requires MoveFits(g, new_, moved, start, end, t, i) && NodeDue(g, start, end, t, i)
    requires Target(Moves(g), i) < 4 * g.Size() && p == Wrap(Target(Moves(g), i), 2 * g.Size())
    ensures !t && NextEmpty(g, end) == end ==> Cleared(new_[p := v], 2 * end, 2 * end + 2)
  {
    ProbedCell(g, new_, moved, start, end, t, i, Target(Moves(g), i));
    if !t && NextEmpty(g, end) == end {
      ClearedElsewhere(g, new_, end, p, v);
    }
  }

  lemma WriteMoved(g: Generation, moved: set<nat>, start: nat, end: nat, i: nat)
    requires g.Valid() && start <= end <= g.Size() && NextEmpty(g, start) <= i < NextEmpty(g, end)
    requires MovedUpTo(g, moved, NextEmpty(g, start), NextEmpty(g, end), i)
    ensures MovedUpTo(g, moved + {Wrap(i, g.Size())}, NextEmpty(g, start), NextEmpty(g, end), i + 1)
  {
    BlockRange(g, start, end);
    MovedMore(g, moved, NextEmpty(g, start), NextEmpty(g, end), i);
  }

  lemma MoveFitsIntro(g: Generation, new_: seq<Slot>, moved: set<nat>, start: nat, end: nat, t: bool, i: nat)
    requires g.Valid() && |new_| == 2 * g.Size() && start <= end <= g.Size()
    requires NextEmpty(g, start) < end && NextEmpty(g, start) <= i <= 2 * g.Size()
    requires MovedUpTo(g, moved, NextEmpty(g, start), NextEmpty(g, end), i)
    requires t ==> end <= i <= NextEmpty(g, end) && end < NextEmpty(g, end)
    requires !t ==> i <= end
    requires !t && NextEmpty(g, end) == end ==> Cleared(new_, 2 * end, 2 * end + 2)
    requires Shows(new_, g, i, NextEmpty(g, start), if t then NextEmpty(g, end) else end)
    ensures WorkFits(g, new_, moved, start, end, Move(t, i))
  {
  }

  lemma WriteShows(g: Generation, new_: seq<Slot>, start: nat, end: nat, t: bool, i: nat, d: nat, p: nat)
    requires g.Valid() && |new_| == 2 * g.Size() && start <= end <= g.Size()
    requires NodeDue(g, start, end, t, i) && NextEmpty(g, start) < end && NextEmpty(g, start) <= i
    requires Shows(new_, g, i, NextEmpty(g, start), if t then NextEmpty(g, end) else end)
    requires Moves(g)[i].home + d == Target(Moves(g), i) < 4 * g.Size()
    requires p == Wrap(Moves(g)[i].home + d, 2 * g.Size())
    ensures var x := g.Laps()[i];
            Shows(new_[p := Stored(Node(x.index, x.tag, d), g.log + 1)], g, i + 1, NextEmpty(g, start),
                  if t then NextEmpty(g, end) else end)
  {
    BlockRange(g, start, end);
    LapLength(g, NextEmpty(g, start), end);
    MoveIs(g, i);
    ShowsWrite(new_, g, i, NextEmpty(g, start), if t then NextEmpty(g, end) else end, Target(Moves(g), i));
  }

  lemma MovedMore(g: Generation, moved: set<nat>, f: nat, j: nat, i: nat)
    requires f <= i < j <= 2 * g.Size() && j - f <= g.Size() && MovedUpTo(g, moved, f, j, i)
    ensures MovedUpTo(g, moved + {Wrap(i, g.Size())}, f, j, i + 1)
  {
    WrapInjective(g.Size(), f, j);
  }

  lemma ClearedElsewhere(g: Generation, new_: seq<Slot>, end: nat, p: nat, v: Slot)
    requires g.Valid() && |new_| == 2 * g.Size() && end <= g.Size() && NextEmpty(g, end) == end && p < |new_|
    requires Cleared(new_, 2 * end, 2 * end + 2) && !g.index[p / 2].Empty?
    ensures Cleared(new_[p := v], 2 * end, 2 * end + 2)
  {
    NextEmptyFacts(g);
    BlockRange(g, 0, end);
    assert g.Laps()[end].Empty?;
  }

  // ---- the invariant of the run ----

  function StageOf(s: State, a: nat): Work
    requires a in s.owner && s.owner[a] < |s.ps|
  {
    var pc := s.ps[s.owner[a]].pc;
    if pc.Busy? && pc.start == a then pc.work else Finished
  }

  ghost predicate Covered(owner: map<nat, nat>, block: nat, x: nat) {
    exists a :: a in owner && a <= x < a + block
  }

  // The cursor hands out disjoint blocks that leave no gap.
  ghost predicate Claims(g: Generation, block: nat, s: State) {
    && (forall a :: a in s.owner ==> a < g.Size() && a + block <= s.cursor && s.owner[a] < |s.ps|)
    && (forall a, b :: a in s.owner && b in s.owner && a < b ==> a + block <= b)
    && (forall x :: 0 <= x < g.Size() && x < s.cursor ==> Covered(s.owner, block, x))
    && (forall w :: 0 <= w < |s.ps| && s.ps[w].pc.Busy? ==>
          s.ps[w].pc.start in s.owner && s.owner[s.ps[w].pc.start] == w)
  }

  ghost predicate BlockFits(g: Generation, block: nat, s: State, a: nat)
    requires g.Valid() && |s.new_| == 2 * g.Size()
    requires a in s.owner && a < g.Size() && s.owner[a] < |s.ps|
  {
    WorkFits(g, s.new_, s.moved, a, EndOf(g, block, a), StageOf(s, a))
  }

  // Old slot x lies in the clusters that block a moves.
  predicate Owns(g: Generation, block: nat, a: nat, x: nat)
    requires a < g.Size()
  {
    InCells(2 * x, g.Size(), NextEmpty(g, a), NextEmpty(g, EndOf(g, block, a)))
  }

  ghost predicate MovedOnce(g: Generation, block: nat, s: State)
    requires Claims(g, block, s)
  {
    forall x :: x in s.moved ==>
      x < g.Size() && g.index[x].Node? && exists a :: a in s.owner && Owns(g, block, a, x)
  }

  function Total(ps: seq<Participant>): nat {
    if ps == [] then 0 else Total(ps[..|ps| - 1]) + ps[|ps| - 1].migrated
  }

  predicate Idle(s: State, w: nat)
    requires w < |s.ps|
  {
    !s.ps[w].pc.Busy?
  }

  // What the participants' states tell. A scan that has passed a participant knows that it holds no
  // unfinished block and, the cursor being exhausted, never will again.
  ghost predicate Protocol(g: Generation, s: State, w: nat)
    requires w < |s.ps|
  {
    var p := s.ps[w];
    && (p.pc.Outside? || p.pc.Entering? ==> p.state == 0)
    && (p.pc.Claiming? || p.pc.Busy? || p.pc.Leaving? <==> p.state == 1)
    && (p.pc.Leaving? || p.state > 1 ==> s.cursor >= g.Size())
    && (p.pc.Scanning? || p.pc.Setting? || p.pc.Waiting? ==> p.state == 2)
    && (p.pc.Scanning? ==> forall v :: 0 <= v < |s.ps| && v < p.pc.next ==> Idle(s, v))
    && (p.pc.Setting? ==> forall v :: 0 <= v < |s.ps| ==> Idle(s, v))
  }

  ghost predicate Completed(g: Generation, s: State) {
    s.cursor >= g.Size() && forall v :: 0 <= v < |s.ps| ==> Idle(s, v)
  }

  // Someone still has a step to take before the event is set.
  predicate Active(p: Participant) {
    p.pc.Claiming? || p.pc.Busy? || p.pc.Leaving? || p.pc.Scanning? || p.pc.Setting?
  }

  ghost predicate Driven(s: State) {
    (exists w :: 0 <= w < |s.ps| && s.ps[w].state == 2) && !s.doneEvent ==>
      exists w :: 0 <= w < |s.ps| && Active(s.ps[w])
  }

  // The part of the invariant about the participants' states and the completion event.
  ghost predicate Phases(g: Generation, s: State) {
    && (forall w :: 0 <= w < |s.ps| ==> Protocol(g, s, w))
    && (s.doneEvent ==> Completed(g, s))
    && Driven(s)
  }

  // The part about blocks and cells.
  ghost predicate Blocks(g: Generation, block: nat, s: State)
    requires g.Valid() && |s.new_| == 2 * g.Size()
  {
    && Claims(g, block, s)
    && (forall a :: a in s.owner ==> BlockFits(g, block, s, a))
    && MovedOnce(g, block, s)
    && Total(s.ps) == |s.moved|
  }

  ghost predicate Inv(g: Generation, block: nat, s: State) {
    && g.Valid() && block >= 1 && |s.new_| == 2 * g.Size()
    && Blocks(g, block, s)
    && Phases(g, s)
  }

  lemma {:induction false} TotalZero(ps: seq<Participant>)
    requires forall w :: 0 <= w < |ps| ==> ps[w].migrated == 0
    ensures Total(ps) == 0
  {
    if ps != [] {
      TotalZero(ps[..|ps| - 1]);
    }
  }

  lemma {:induction false} TotalUpdate(ps: seq<Participant>, w: nat, p: Participant)
    requires w < |ps|
    ensures Total(ps[w := p]) == Total(ps) - ps[w].migrated + p.migrated
  {
    var k := |ps| - 1;
    if w == k {
      assert ps[w := p][..k] == ps[..k];
    } else {
      TotalUpdate(ps[..k], w, p);
      assert ps[w := p][..k] == ps[..k][w := p];
    }
  }

  lemma InitInv(g: Generation, block: nat, s: State)
    requires g.Valid() && block >= 1 && Init(g, s)
    ensures Inv(g, block, s)
  {
    TotalZero(s.ps);
  }

  // ---- steps that move no node and clear no slot ----

  // A step of participant w that neither claims nor works on a block.
  ghost predicate Control(s: State, s': State, w: nat)
    requires w < |s.ps| == |s'.ps|
  {
    && s'.ps == s.ps[w := s'.ps[w]] && s'.ps[w].migrated == s.ps[w].migrated
    && s'.new_ == s.new_ && s'.cursor == s.cursor && s'.owner == s.owner && s'.moved == s.moved
    && !s.ps[w].pc.Busy? && !s'.ps[w].pc.Busy?
  }

  lemma ControlKeepsBlocks(g: Generation, block: nat, s: State, s': State, w: nat)
    requires Inv(g, block, s) && w < |s.ps| == |s'.ps| && Control(s, s', w)
    ensures Blocks(g, block, s')
  {
    TotalUpdate(s.ps, w, s'.ps[w]);
    forall a | a in s'.owner
      ensures BlockFits(g, block, s', a)
    {
      assert BlockFits(g, block, s, a);
      assert StageOf(s', a) == StageOf(s, a);
    }
  }

  // ---- claiming a block ----

  lemma OwnersDiffer(g: Generation, block: nat, a: nat, b: nat, x: nat)
    requires g.Valid() && block >= 1 && a + block <= b < g.Size() && x < g.Size()
    requires Owns(g, block, a, x) && Owns(g, block, b, x)
    ensures g.index[x].Empty?
  {
    SharedCellsEmpty(g, a, EndOf(g, block, a), b, EndOf(g, block, b), 2 * x);
  }

  lemma NothingMovedYet(g: Generation, block: nat, s: State)
    requires Inv(g, block, s) && s.cursor < g.Size()
    ensures var f, j := NextEmpty(g, s.cursor), NextEmpty(g, EndOf(g, block, s.cursor));
            f <= j && MovedUpTo(g, s.moved, f, j, f)
  {
    var n, start := g.Size(), s.cursor;
    BlockRange(g, start, EndOf(g, block, start));
    var f, j := NextEmpty(g, start), NextEmpty(g, EndOf(g, block, start));
    forall k | f <= k < j && g.Laps()[k].Node?
      ensures Wrap(k, n) !in s.moved
    {
      if Wrap(k, n) in s.moved {
        var a :| a in s.owner && Owns(g, block, a, Wrap(k, n));
        assert Owns(g, block, start, Wrap(k, n));
        OwnersDiffer(g, block, a, start, Wrap(k, n));
        assert false;
      }
    }
  }

  // What a claim changes.
  ghost predicate Claimed(g: Generation, block: nat, s: State, s': State, w: nat) {
    && w < |s.ps| == |s'.ps| && s'.cursor == s.cursor + block && s'.new_ == s.new_ && s'.moved == s.moved
    && s'.ps == s.ps[w := s'.ps[w]] && s'.ps[w].migrated == s.ps[w].migrated
    && if s.cursor >= g.Size() then s'.owner == s.owner && s'.ps[w].pc == Leaving
       else
         && s'.owner == s.owner[s.cursor := w]
         && var f := NextEmpty(g, s.cursor);
            s'.ps[w].pc == if f >= EndOf(g, block, s.cursor) then Claiming else Busy(s.cursor, Clear(false, 2 * f))
  }

  lemma ClaimIs(g: Generation, block: nat, s: State, w: nat)
    requires w < |s.ps|
    ensures Claimed(g, block, s, Claim(g, block, s, w), w)
  {
  }

  lemma ClaimKeepsClaims(g: Generation, block: nat, s: State, s': State, w: nat)
    requires Claims(g, block, s) && block >= 1 && Claimed(g, block, s, s', w) && s.ps[w].pc.Claiming?
    ensures Claims(g, block, s')
  {
    forall x | 0 <= x < g.Size() && x < s'.cursor
      ensures Covered(s'.owner, block, x)
    {
      ClaimCovers(g, block, s, s', w, x);
    }
  }

  lemma ClaimCovers(g: Generation, block: nat, s: State, s': State, w: nat, x: nat)
    requires Claims(g, block, s) && Claimed(g, block, s, s', w) && x < g.Size() && x < s'.cursor
    ensures Covered(s'.owner, block, x)
  {
    if x < s.cursor {
      assert Covered(s.owner, block, x);
      var a :| a in s.owner && a <= x < a + block;
      assert a in s'.owner;
    } else {
      assert s.cursor in s'.owner;
    }
  }

  lemma ClaimKeepsFits(g: Generation, block: nat, s: State, s': State, w: nat, a: nat)
    requires Inv(g, block, s) && Claimed(g, block, s, s', w) && s.ps[w].pc.Claiming?
    requires a in s'.owner && Claims(g, block, s')
    ensures BlockFits(g, block, s', a)
  {
    hide WorkFits, Phases, MovedOnce, Total;
    if a in s.owner {
      assert BlockFits(g, block, s, a);
      assert StageOf(s', a) == StageOf(s, a);
    } else {
      NothingMovedYet(g, block, s);
      FreshBlock(g, s.new_, s.moved, a, EndOf(g, block, a));
    }
  }

  lemma FreshBlock(g: Generation, new_: seq<Slot>, moved: set<nat>, start: nat, end: nat)
    requires g.Valid() && |new_| == 2 * g.Size() && start < end <= g.Size()
    requires MovedUpTo(g, moved, NextEmpty(g, start), NextEmpty(g, end), NextEmpty(g, start))
    ensures var f := NextEmpty(g, start);
            WorkFits(g, new_, moved, start, end, if f >= end then Finished else Clear(false, 2 * f))
  {
    BlockRange(g, start, end);
  }

  lemma ClaimKeepsBlocks(g: Generation, block: nat, s: State, w: nat)
    requires Inv(g, block, s) && w < |s.ps| && s.ps[w].pc.Claiming?
    ensures Blocks(g, block, Claim(g, block, s, w))
  {
    hide WorkFits, Claim, Phases;
    var s' := Claim(g, block, s, w);
    ClaimIs(g, block, s, w);
    ClaimKeepsClaims(g, block, s, s', w);
    TotalUpdate(s.ps, w, s'.ps[w]);
    forall a | a in s'.owner
      ensures BlockFits(g, block, s', a)
    {
      ClaimKeepsFits(g, block, s, s', w, a);
    }
    OwnersStay(g, block, s, s');
  }

  lemma OwnersStay(g: Generation, block: nat, s: State, s': State)
    requires Claims(g, block, s) && MovedOnce(g, block, s) && Claims(g, block, s')
    requires s'.moved == s.moved && forall a :: a in s.owner ==> a in s'.owner
    ensures MovedOnce(g, block, s')
  {
    forall x | x in s'.moved
      ensures exists a :: a in s'.owner && Owns(g, block, a, x)
    {
      var a :| a in s.owner && Owns(g, block, a, x);
      assert a in s'.owner;
    }
  }

  // ---- working on a block ----

  // A write that a step of the block call on `start` may do: it stays in the block's own cells, and
  // only a clear reaches the cell of an old empty slot.
  ghost predicate OwnWrite(g: Generation, block: nat, start: nat, p: nat, v: Slot) {
    && start < g.Size() && p < 2 * g.Size()
    && Touches(g, start, EndOf(g, block, start), p)
    && (v.Empty? || !g.index[p / 2].Empty?)
  }

  // What one block call does, no other block call notices: any interleaving is as good as another.
  lemma OthersKept(g: Generation, block: nat, s: State, start: nat, b: nat, p: nat, v: Slot)
    requires Inv(g, block, s) && start in s.owner && b in s.owner && b != start
    requires OwnWrite(g, block, start, p, v)
    ensures WorkFits(g, s.new_[p := v], s.moved, b, EndOf(g, block, b), StageOf(s, b))
  {
    assert BlockFits(g, block, s, b);
    var e, eb := EndOf(g, block, start), EndOf(g, block, b);
    if Touches(g, b, eb, p) {
      if start < b {
        SharedCellsEmpty(g, start, e, b, eb, p);
      } else {
        SharedCellsEmpty(g, b, eb, start, e, p);
      }
    }
    WorkStable(g, s.new_, s.moved, b, eb, StageOf(s, b), p, v);
  }

  lemma NotShared(g: Generation, block: nat, a: nat, b: nat, x: nat)
    requires g.Valid() && block >= 1 && a < g.Size() && b < g.Size() && (a + block <= b || b + block <= a)
    requires x < g.Size() && !g.index[x].Empty? && Owns(g, block, a, x)
    ensures !Owns(g, block, b, x)
  {
    if Owns(g, block, b, x) {
      if a < b {
        OwnersDiffer(g, block, a, b, x);
      } else {
        OwnersDiffer(g, block, b, a, x);
      }
      assert false;
    }
  }

  lemma OtherMovesKept(g: Generation, block: nat, moved: set<nat>, b: nat, x: nat, i: nat)
    requires g.Valid() && b < g.Size() && x < g.Size() && !Owns(g, block, b, x)
    requires MovedUpTo(g, moved, NextEmpty(g, b), NextEmpty(g, EndOf(g, block, b)), i)
    ensures MovedUpTo(g, moved + {x}, NextEmpty(g, b), NextEmpty(g, EndOf(g, block, b)), i)
  {
  }

  lemma OtherWorkMoved(g: Generation, block: nat, new_: seq<Slot>, moved: set<nat>, b: nat, x: nat, work: Work)
    requires g.Valid() && |new_| == 2 * g.Size() && block >= 1 && b < g.Size() && x < g.Size()
    requires !Owns(g, block, b, x) && WorkFits(g, new_, moved, b, EndOf(g, block, b), work)
    ensures WorkFits(g, new_, moved + {x}, b, EndOf(g, block, b), work)
  {
    var i := match work
      case Clear(false, _) => NextEmpty(g, b)
      case Clear(true, _) => EndOf(g, block, b)
      case Move(_, i) => i
      case Probe(_, i, _) => i
      case Write(_, i, _) => i
      case Finished => NextEmpty(g, EndOf(g, block, b));
    OtherMovesKept(g, block, moved, b, x, i);
  }

  // The step of participant w on its block `start` takes the block to stage `work`.
  ghost predicate Restaged(g: Generation, block: nat, s: State, s': State, w: nat, work: Work)
    requires w < |s.ps| && s.ps[w].pc.Busy?
  {
    && |s'.ps| == |s.ps| && s'.ps == s.ps[w := s'.ps[w]]
    && s'.owner == s.owner && s'.cursor == s.cursor && s'.doneEvent == s.doneEvent
    && s'.ps[w].pc == (if work.Finished? then Claiming else Busy(s.ps[w].pc.start, work))
    && s'.ps[w].state == s.ps[w].state
  }

  lemma RestagedBlocks(g: Generation, block: nat, s: State, s': State, w: nat, work: Work)
    requires Inv(g, block, s) && w < |s.ps| && s.ps[w].pc.Busy? && Restaged(g, block, s, s', w, work)
    requires |s'.new_| == 2 * g.Size() && Claims(g, block, s') && MovedOnce(g, block, s') && Total(s'.ps) == |s'.moved|
    requires WorkFits(g, s'.new_, s'.moved, s.ps[w].pc.start, EndOf(g, block, s.ps[w].pc.start), work)
    requires forall b :: b in s.owner && b != s.ps[w].pc.start ==>
               WorkFits(g, s'.new_, s'.moved, b, EndOf(g, block, b), StageOf(s, b))
    ensures Blocks(g, block, s')
  {
    hide WorkFits, MovedOnce, Total;
    var start := s.ps[w].pc.start;
    forall a | a in s'.owner
      ensures BlockFits(g, block, s', a)
    {
      if a == start {
        assert StageOf(s', a) == work;
      } else {
        assert StageOf(s', a) == StageOf(s, a);
      }
    }
  }

  lemma RestagedClaims(g: Generation, block: nat, s: State, s': State, w: nat, work: Work)
    requires Inv(g, block, s) && w < |s.ps| && s.ps[w].pc.Busy? && Restaged(g, block, s, s', w, work)
    ensures Claims(g, block, s')
    ensures Total(s'.ps) == |s.moved| - s.ps[w].migrated + s'.ps[w].migrated
    ensures s'.moved == s.moved ==> MovedOnce(g, block, s')
  {
    hide WorkFits;
    TotalUpdate(s.ps, w, s'.ps[w]);
    if s'.moved == s.moved {
      OwnersStay(g, block, s, s');
    }
  }

  // A step that writes nothing.
  lemma QuietStep(g: Generation, block: nat, s: State, s': State, w: nat, work: Work)
    requires Inv(g, block, s) && w < |s.ps| && s.ps[w].pc.Busy? && Restaged(g, block, s, s', w, work)
    requires s'.new_ == s.new_ && s'.moved == s.moved && s'.ps[w].migrated == s.ps[w].migrated
    requires WorkFits(g, s.new_, s.moved, s.ps[w].pc.start, EndOf(g, block, s.ps[w].pc.start), work)
    ensures Blocks(g, block, s')
  {
    hide WorkFits;
    RestagedClaims(g, block, s, s', w, work);
    forall b | b in s.owner
      ensures WorkFits(g, s.new_, s.moved, b, EndOf(g, block, b), StageOf(s, b))
    {
      assert BlockFits(g, block, s, b);
    }
    RestagedBlocks(g, block, s, s', w, work);
  }

  lemma ClearingStep(g: Generation, block: nat, s: State, s': State, w: nat, work: Work, p: nat)
    requires Inv(g, block, s) && w < |s.ps| && s.ps[w].pc.Busy? && Restaged(g, block, s, s', w, work)
    requires OwnWrite(g, block, s.ps[w].pc.start, p, Empty) && s'.new_ == s.new_[p := Empty]
    requires s'.moved == s.moved && s'.ps[w].migrated == s.ps[w].migrated
    requires WorkFits(g, s'.new_, s.moved, s.ps[w].pc.start, EndOf(g, block, s.ps[w].pc.start), work)
    ensures Blocks(g, block, s')
  {
    hide WorkFits;
    RestagedClaims(g, block, s, s', w, work);
    forall b | b in s.owner && b != s.ps[w].pc.start
      ensures WorkFits(g, s'.new_, s.moved, b, EndOf(g, block, b), StageOf(s, b))
    {
      OthersKept(g, block, s, s.ps[w].pc.start, b, p, Empty);
    }
    RestagedBlocks(g, block, s, s', w, work);
  }

  lemma OtherAfterWrite(g: Generation, block: nat, s: State, start: nat, b: nat, p: nat, v: Slot, x: nat)
    requires Inv(g, block, s) && start in s.owner && b in s.owner && b != start
    requires OwnWrite(g, block, start, p, v)
    requires x < g.Size() && g.index[x].Node? && Owns(g, block, start, x)
    ensures WorkFits(g, s.new_[p := v], s.moved + {x}, b, EndOf(g, block, b), StageOf(s, b))
  {
    hide WorkFits;
    OthersKept(g, block, s, start, b, p, v);
    NotShared(g, block, start, b, x);
    OtherWorkMoved(g, block, s.new_[p := v], s.moved, b, x, StageOf(s, b));
  }

  // Moving the node of old slot x, which nobody has moved before.
  lemma WritingStep(g: Generation, block: nat, s: State, s': State, w: nat, work: Work, p: nat, v: Slot, x: nat)
    requires Inv(g, block, s) && w < |s.ps| && s.ps[w].pc.Busy? && Restaged(g, block, s, s', w, work)
    requires OwnWrite(g, block, s.ps[w].pc.start, p, v) && s'.new_ == s.new_[p := v]
    requires x < g.Size() && g.index[x].Node? && Owns(g, block, s.ps[w].pc.start, x)
    requires x !in s.moved && s'.moved == s.moved + {x} && s'.ps[w].migrated == s.ps[w].migrated + 1
    requires WorkFits(g, s'.new_, s'.moved, s.ps[w].pc.start, EndOf(g, block, s.ps[w].pc.start), work)
    ensures Blocks(g, block, s')
  {
    hide WorkFits;
    var start := s.ps[w].pc.start;
    RestagedClaims(g, block, s, s', w, work);
    forall b | b in s.owner && b != start
      ensures WorkFits(g, s'.new_, s'.moved, b, EndOf(g, block, b), StageOf(s, b))
    {
      OtherAfterWrite(g, block, s, start, b, p, v, x);
    }
    OneMoreMoved(g, block, s, s', start, x);
    RestagedBlocks(g, block, s, s', w, work);
  }

  lemma OneMoreMoved(g: Generation, block: nat, s: State, s': State, start: nat, x: nat)
    requires Claims(g, block, s) && MovedOnce(g, block, s) && Claims(g, block, s') && s'.owner == s.owner
    requires start in s.owner && x < g.Size() && g.index[x].Node? && Owns(g, block, start, x)
    requires s'.moved == s.moved + {x}
    ensures MovedOnce(g, block, s')
  {
    forall y | y in s'.moved
      ensures y < g.Size() && g.index[y].Node? && exists a :: a in s'.owner && Owns(g, block, a, y)
    {
      if y == x {
        assert start in s'.owner;
      }
    }
  }

  // ---- each kind of step of a block call ----

  ghost predicate AtWork(g: Generation, block: nat, s: State, w: nat, start: nat, work: Work) {
    Inv(g, block, s) && w < |s.ps| && s.ps[w].pc == Busy(start, work)
  }

  lemma WorkFitsNow(g: Generation, block: nat, s: State, w: nat, start: nat, work: Work)
    requires AtWork(g, block, s, w, start, work)
    ensures Sized(g, s, w) && g.Valid() && block >= 1 && start in s.owner
    ensures start < g.Size() && start < EndOf(g, block, start) <= g.Size()
    ensures WorkFits(g, s.new_, s.moved, start, EndOf(g, block, start), work)
  {
    assert BlockFits(g, block, s, start);
  }

  lemma ClearKeeps(g: Generation, block: nat, s: State, w: nat, start: nat, t: bool, k: nat)
    requires Sized(g, s, w) && AtWork(g, block, s, w, start, Clear(t, k))
    ensures Blocks(g, block, ClearStep(g, block, s, w, start, t, k))
  {
    hide Inv, Blocks;
    WorkFitsNow(g, block, s, w, start, Clear(t, k));
    var s' := ClearStep(g, block, s, w, start, t, k);
    ClearStepFits(g, s.new_, s.moved, block, start, t, k);
    if k >= ClearStop(g, block, start, t) {
      QuietStep(g, block, s, s', w, s'.ps[w].pc.work);
    } else {
      ClearingStep(g, block, s, s', w, Clear(t, k + 1), Rem(k, 2 * g.Size()));
    }
  }

  lemma MoveKeeps(g: Generation, block: nat, s: State, w: nat, start: nat, t: bool, i: nat)
    requires Sized(g, s, w) && AtWork(g, block, s, w, start, Move(t, i))
    ensures Blocks(g, block, MoveStep(g, block, s, w, start, t, i))
  {
    hide Inv, Blocks;
    WorkFitsNow(g, block, s, w, start, Move(t, i));
    if i >= MoveStop(g, block, start, t) {
      MoveEndsKeeps(g, block, s, w, start, t, i);
    } else {
      MoveOnKeeps(g, block, s, w, start, t, i);
    }
  }

  lemma MoveOnKeeps(g: Generation, block: nat, s: State, w: nat, start: nat, t: bool, i: nat)
    requires Sized(g, s, w) && AtWork(g, block, s, w, start, Move(t, i)) && i < MoveStop(g, block, start, t)
    ensures Blocks(g, block, MoveStep(g, block, s, w, start, t, i))
  {
    hide Inv, Blocks, WorkFits;
    WorkFitsNow(g, block, s, w, start, Move(t, i));
    MoveOnFits(g, s.new_, s.moved, start, EndOf(g, block, start), t, i);
    if g.Laps()[i].Node? {
      QuietStep(g, block, s, Goto(s, w, Busy(start, Probe(t, i, 0))), w, Probe(t, i, 0));
    } else {
      QuietStep(g, block, s, Goto(s, w, Busy(start, Move(t, i + 1))), w, Move(t, i + 1));
    }
  }

  lemma MoveEndsKeeps(g: Generation, block: nat, s: State, w: nat, start: nat, t: bool, i: nat)
    requires Sized(g, s, w) && AtWork(g, block, s, w, start, Move(t, i)) && i >= MoveStop(g, block, start, t)
    ensures Blocks(g, block, MoveStep(g, block, s, w, start, t, i))
  {
    hide Inv, Blocks;
    WorkFitsNow(g, block, s, w, start, Move(t, i));
    MoveEnds(g, s.new_, s.moved, block, start, t, i);
    var pc := AfterMoves(g, block, start, t);
    QuietStep(g, block, s, Goto(s, w, pc), w, if pc.Busy? then pc.work else Finished);
  }

  lemma MoveOnFits(g: Generation, new_: seq<Slot>, moved: set<nat>, start: nat, end: nat, t: bool, i: nat)
    requires g.Valid() && |new_| == 2 * g.Size() && start <= end <= g.Size()
    requires WorkFits(g, new_, moved, start, end, Move(t, i)) && i < (if t then NextEmpty(g, end) else end)
    ensures i < 2 * g.Size()
    ensures WorkFits(g, new_, moved, start, end, if g.Laps()[i].Node? then Probe(t, i, 0) else Move(t, i + 1))
  {
    if g.Laps()[i].Node? {
      MoveToProbe(g, new_, moved, start, end, t, i);
    } else {
      SkipFits(g, new_, moved, start, end, t, i);
    }
  }

  lemma ProbeFits(g: Generation, new_: seq<Slot>, moved: set<nat>, start: nat, end: nat, t: bool, i: nat, d: nat)
    requires g.Valid() && |new_| == 2 * g.Size() && start <= end <= g.Size()
    requires WorkFits(g, new_, moved, start, end, Probe(t, i, d))
    ensures d < 2 * g.Size() && i < 2 * g.Size() && g.Laps()[i].Node?
    ensures new_[ProbedSlot(g, i, d)].Empty? ==> WorkFits(g, new_, moved, start, end, Write(t, i, d))
    ensures !new_[ProbedSlot(g, i, d)].Empty? ==> WorkFits(g, new_, moved, start, end, Probe(t, i, d + 1))
  {
    ProbeAt(g, new_, moved, start, end, t, i, d, ProbedSlot(g, i, d));
  }

  lemma ProbeAt(g: Generation, new_: seq<Slot>, moved: set<nat>, start: nat, end: nat, t: bool, i: nat, d: nat, p: nat)
    requires g.Valid() && |new_| == 2 * g.Size() && start <= end <= g.Size()
    requires MoveFits(g, new_, moved, start, end, t, i) && NodeDue(g, start, end, t, i)
    requires Moves(g)[i].home + d <= Target(Moves(g), i) && p == ProbedSlot(g, i, d)
    ensures d < 2 * g.Size()
    ensures new_[p].Empty? <==> Moves(g)[i].home + d == Target(Moves(g), i)
  {
    hide ProbedSlot;
    ProbedSlotInCells(g, new_, moved, start, end, t, i, d);
    ProbeReads(g, new_, moved, start, end, t, i, Moves(g)[i].home + d);
  }

  lemma ProbeKeeps(g: Generation, block: nat, s: State, w: nat, start: nat, t: bool, i: nat, d: nat)
    requires Sized(g, s, w) && AtWork(g, block, s, w, start, Probe(t, i, d))
    ensures Blocks(g, block, ProbeStep(g, s, w, start, t, i, d))
  {
    hide Inv, Blocks, WorkFits;
    WorkFitsNow(g, block, s, w, start, Probe(t, i, d));
    ProbeFits(g, s.new_, s.moved, start, EndOf(g, block, start), t, i, d);
    var s' := ProbeStep(g, s, w, start, t, i, d);
    if s.new_[ProbedSlot(g, i, d)].Empty? {
      QuietStep(g, block, s, s', w, Write(t, i, d));
    } else {
      QuietStep(g, block, s, s', w, Probe(t, i, d + 1));
    }
  }

  // The slot written and the node moved belong to the block.
  lemma WriteOwns(g: Generation, block: nat, new_: seq<Slot>, moved: set<nat>, start: nat, t: bool, i: nat, d: nat)
    requires g.Valid() && |new_| == 2 * g.Size() && start < EndOf(g, block, start) <= g.Size()
    requires WorkFits(g, new_, moved, start, EndOf(g, block, start), Write(t, i, d))
    ensures i < 2 * g.Size() && g.Laps()[i].Node?
    ensures var x := g.Laps()[i];
            var p, v := ProbedSlot(g, i, d), Stored(Node(x.index, x.tag, d), g.log + 1);
            && OwnWrite(g, block, start, p, v)
            && WorkFits(g, new_[p := v], moved + {Wrap(i, g.Size())}, start, EndOf(g, block, start), Move(t, i + 1))
    ensures var x := Wrap(i, g.Size()); g.index[x].Node? && Owns(g, block, start, x) && x !in moved
  {
    var end := EndOf(g, block, start);
    ProbedSlotInCells(g, new_, moved, start, end, t, i, d);
    ProbedCell(g, new_, moved, start, end, t, i, Moves(g)[i].home + d);
    WriteStepFits(g, new_, moved, start, end, t, i, d, ProbedSlot(g, i, d));
    OwnsWritten(g, block, new_, moved, start, t, i, d);
  }

  lemma OwnsWritten(g: Generation, block: nat, new_: seq<Slot>, moved: set<nat>, start: nat, t: bool, i: nat, d: nat)
    requires g.Valid() && |new_| == 2 * g.Size() && start < EndOf(g, block, start) <= g.Size()
    requires WorkFits(g, new_, moved, start, EndOf(g, block, start), Write(t, i, d)) && i < 2 * g.Size()
    ensures var x := Wrap(i, g.Size()); g.index[x].Node? && Owns(g, block, start, x) && x !in moved
  {
    BlockRange(g, start, EndOf(g, block, start));
  }

  lemma WriteKeeps(g: Generation, block: nat, s: State, w: nat, start: nat, t: bool, i: nat, d: nat)
    requires Sized(g, s, w) && AtWork(g, block, s, w, start, Write(t, i, d))
    ensures Blocks(g, block, WriteStep(g, s, w, start, t, i, d))
  {
    hide Inv, Blocks, WorkFits, OwnWrite, ProbedSlot;
    WorkFitsNow(g, block, s, w, start, Write(t, i, d));
    WriteOwns(g, block, s.new_, s.moved, start, t, i, d);
    var x := g.Laps()[i];
    var p, v := ProbedSlot(g, i, d), Stored(Node(x.index, x.tag, d), g.log + 1);
    WritingStep(g, block, s, WriteStep(g, s, w, start, t, i, d), w, Move(t, i + 1), p, v, Wrap(i, g.Size()));
  }

  lemma WorkKeepsBlocks(g: Generation, block: nat, s: State, w: nat, start: nat, work: Work)
    requires Sized(g, s, w) && AtWork(g, block, s, w, start, work)
    ensures Blocks(g, block, WorkStep(g, block, s, w, start, work))
  {
    hide Inv, Blocks;
    match work {
      case Clear(t, k) => ClearKeeps(g, block, s, w, start, t, k);
      case Move(t, i) => MoveKeeps(g, block, s, w, start, t, i);
      case Probe(t, i, d) => ProbeKeeps(g, block, s, w, start, t, i, d);
      case Write(t, i, d) => WriteKeeps(g, block, s, w, start, t, i, d);
      case Finished => NeverFinished(g, block, s, w, start);
    }
  }

  lemma NeverFinished(g: Generation, block: nat, s: State, w: nat, start: nat)
    requires AtWork(g, block, s, w, start, Finished)
    ensures g.Valid() && |s.new_| == 2 * g.Size() && Blocks(g, block, s)
  {
  }

  // ---- every step keeps the invariant ----

  lemma StepKeepsBlocks(g: Generation, block: nat, s: State, w: nat)
    requires Sized(g, s, w) && Inv(g, block, s)
    ensures g.Valid() && Blocks(g, block, Step(g, block, s, w))
  {
    hide WorkFits, Blocks, Phases;
    match s.ps[w].pc {
      case Busy(start, work) => WorkKeepsBlocks(g, block, s, w, start, work);
      case Claiming => ClaimKeepsBlocks(g, block, s, w);
      case _ => ControlKeepsBlocks(g, block, s, Step(g, block, s, w), w);
    }
  }

  // A step as the protocol sees it: what becomes of the acting participant, the cursor and the event.
  ghost predicate Turn(g: Generation, s: State, s': State, w: nat)
    requires w < |s.ps| == |s'.ps|
  {
    var p, p' := s.ps[w], s'.ps[w];
    && s'.ps == s.ps[w := p'] && s.cursor <= s'.cursor
    && s'.doneEvent == (s.doneEvent || p.pc.Setting?)
    && match p.pc
       case Outside => p'.state == p.state && if s.doneEvent then p'.pc.Gone? else p'.pc.Entering?
       case Entering => p'.state == 1 && p'.pc.Claiming?
       case Claiming =>
         p'.state == p.state &&
         if s.cursor >= g.Size() then p'.pc.Leaving? else p'.pc.Claiming? || p'.pc.Busy?
       case Busy(_, _) => p'.state == p.state && (p'.pc.Claiming? || p'.pc.Busy?)
       case Leaving => p'.state == 2 && p'.pc == Scanning(0)
       case Scanning(a) =>
         p'.state == p.state &&
         if a >= |s.ps| then p'.pc.Setting?
         else if s.ps[a].state == 1 then p'.pc.Waiting? else p'.pc == Scanning(a + 1)
       case Setting => p'.state == p.state && p'.pc.Waiting?
       case Waiting => p'.state == p.state && p'.pc.Gone?
       case Gone => p' == p
  }

  lemma WorkTurn(g: Generation, block: nat, s: State, w: nat, start: nat, work: Work)
    requires Sized(g, s, w) && s.ps[w].pc == Busy(start, work)
    ensures Turn(g, s, WorkStep(g, block, s, w, start, work), w)
  {
    match work {
      case Clear(_, _) =>
      case Move(_, _) =>
      case Probe(_, _, _) =>
      case Write(_, _, _) =>
      case Finished =>
    }
  }

  lemma StepTurn(g: Generation, block: nat, s: State, w: nat)
    requires Sized(g, s, w)
    ensures Turn(g, s, Step(g, block, s, w), w)
  {
    hide WorkStep;
    if s.ps[w].pc.Busy? {
      WorkTurn(g, block, s, w, s.ps[w].pc.start, s.ps[w].pc.work);
    }
  }

  lemma IdleStays(g: Generation, s: State, s': State, w: nat)
    requires w < |s.ps| == |s'.ps| && Turn(g, s, s', w) && s.cursor >= g.Size()
    ensures forall v :: 0 <= v < |s.ps| && Idle(s, v) ==> Idle(s', v)
  {
  }

  lemma TurnProtocol(g: Generation, s: State, s': State, w: nat)
    requires w < |s.ps| == |s'.ps| && Phases(g, s) && Turn(g, s, s', w) && Enabled(s, w)
    ensures Protocol(g, s', w)
  {
    assert Protocol(g, s, w);
    if s.cursor >= g.Size() {
      IdleStays(g, s, s', w);
    }
    if s.ps[w].pc.Scanning? && s.ps[w].pc.next < |s.ps| {
      assert Protocol(g, s, s.ps[w].pc.next);
      assert Idle(s', s.ps[w].pc.next) || s'.ps[w].pc.Waiting?;
    }
  }

  // Nobody turns busy once the cursor is exhausted, so what a scan has seen stays true.
  lemma TurnOthers(g: Generation, s: State, s': State, w: nat, v: nat)
    requires w < |s.ps| == |s'.ps| && Phases(g, s) && Turn(g, s, s', w) && v < |s.ps| && v != w
    ensures Protocol(g, s', v)
  {
    assert Protocol(g, s, v);
    assert Protocol(g, s, w);
    if s.cursor >= g.Size() {
      IdleStays(g, s, s', w);
    }
  }

  lemma TurnCompleted(g: Generation, s: State, s': State, w: nat)
    requires w < |s.ps| == |s'.ps| && Phases(g, s) && Turn(g, s, s', w)
    ensures s'.doneEvent ==> Completed(g, s')
  {
    assert Protocol(g, s, w);
    if s.cursor >= g.Size() {
      IdleStays(g, s, s', w);
    }
  }

  // The last participant to reach state 2 sets the event: while it is unset, a participant that
  // stops to wait has seen another one that still runs.
  lemma TurnDriven(g: Generation, s: State, s': State, w: nat)
    requires w < |s.ps| == |s'.ps| && Phases(g, s) && Turn(g, s, s', w) && Enabled(s, w)
    ensures Driven(s')
  {
    assert Protocol(g, s, w);
    if !s'.doneEvent && !Active(s'.ps[w]) {
      if s.ps[w].pc.Scanning? {
        var a := s.ps[w].pc.next;
        assert Protocol(g, s, a);
        assert Active(s'.ps[a]);
      } else if exists v :: 0 <= v < |s'.ps| && s'.ps[v].state == 2 {
        var v :| 0 <= v < |s'.ps| && s'.ps[v].state == 2;
        assert s.ps[v].state == 2;
        var u :| 0 <= u < |s.ps| && Active(s.ps[u]);
        assert Active(s'.ps[u]);
      }
    }
  }

  lemma StepInv(g: Generation, block: nat, s: State, w: nat)
    requires Sized(g, s, w) && Inv(g, block, s) && Enabled(s, w)
    ensures Inv(g, block, Step(g, block, s, w))
  {
    hide Blocks, Turn, Protocol, Driven, Completed;
    var s' := Step(g, block, s, w);
    StepKeepsBlocks(g, block, s, w);
    StepTurn(g, block, s, w);
    forall v | 0 <= v < |s'.ps|
      ensures Protocol(g, s', v)
    {
      if v == w {
        TurnProtocol(g, s, s', w);
      } else {
        TurnOthers(g, s, s', w, v);
      }
    }
    TurnCompleted(g, s, s', w);
    TurnDriven(g, s, s', w);
  }

  // ---- whole runs ----

  ghost predicate Next(g: Generation, block: nat, s: State, s': State) {
    exists w :: Sized(g, s, w) && Enabled(s, w) && s' == Step(g, block, s, w)
  }

  ghost predicate Run(g: Generation, block: nat, run: seq<State>) {
    && g.Valid() && block >= 1 && run != [] && Init(g, run[0])
    && forall i :: 0 <= i < |run| - 1 ==> Next(g, block, run[i], run[i + 1])
  }

  lemma {:induction false} RunInv(g: Generation, block: nat, run: seq<State>)
    requires Run(g, block, run)
    ensures Inv(g, block, run[|run| - 1])
  {
    if |run| == 1 {
      InitInv(g, block, run[0]);
    } else {
      var k := |run| - 1;
      assert Next(g, block, run[k - 1], run[k]);
      RunInv(g, block, run[..k]);
      var w :| Sized(g, run[k - 1], w) && Enabled(run[k - 1], w) && run[k] == Step(g, block, run[k - 1], w);
      StepInv(g, block, run[k - 1], w);
    }
  }

  // ---- completion ----

  // The last empty slot at or before position k of the lap.
  function LastEmpty(g: Generation, k: nat): (e: nat)
    requires NextEmpty(g, 0) <= k < 2 * g.Size()
    ensures NextEmpty(g, 0) <= e <= k && g.Laps()[e].Empty?
    ensures forall i :: e < i <= k ==> !g.Laps()[i].Empty?
    decreases k
  {
    if g.Laps()[k].Empty? then k else LastEmpty(g, k - 1)
  }

  // Every slot of the new index is touched by the block that holds the last empty slot before it.
  lemma TouchedBy(g: Generation, block: nat, a: nat, k: nat)
    requires g.Valid() && block >= 1 && a < g.Size() && InLap(g, k) && k < 2 * g.Size()
    requires a <= LastEmpty(g, k) < a + block
    ensures Touches(g, a, EndOf(g, block, a), Wrap(2 * k, 2 * g.Size()))
    ensures Touches(g, a, EndOf(g, block, a), Wrap(2 * k + 1, 2 * g.Size()))
  {
    var end, e := EndOf(g, block, a), LastEmpty(g, k);
    BlockRange(g, a, end);
    LastEmptyInside(g, k);
    assert NextEmpty(g, a) <= e;
    assert NextEmpty(g, end) > k || (e == k && end == k + 1);
  }

  lemma LastEmptyInside(g: Generation, k: nat)
    requires g.Valid() && InLap(g, k) && k < 2 * g.Size()
    ensures LastEmpty(g, k) < g.Size()
  {
    NextEmptyFacts(g);
  }

  lemma BlockAt(g: Generation, block: nat, s: State, k: nat) returns (a: nat)
    requires Inv(g, block, s) && Completed(g, s) && InLap(g, k) && k < 2 * g.Size()
    ensures a in s.owner && a < g.Size() && a <= LastEmpty(g, k) < a + block
    ensures WorkFits(g, s.new_, s.moved, a, EndOf(g, block, a), Finished)
  {
    hide WorkFits;
    LastEmptyInside(g, k);
    assert Covered(s.owner, block, LastEmpty(g, k));
    a :| a in s.owner && a <= LastEmpty(g, k) < a + block;
    FinishedBlock(g, block, s, a);
  }

  lemma FinalSlot(g: Generation, block: nat, s: State, p: nat)
    requires Inv(g, block, s) && Completed(g, s) && p < 2 * g.Size()
    ensures s.new_[p] == NewIndex(g)[p]
  {
    hide WorkFits, Blocks, Completed, Phases;
    NextEmptyFacts(g);
    var n := g.Size();
    var k := if p / 2 < NextEmpty(g, 0) then p / 2 + n else p / 2;
    var a := BlockAt(g, block, s, k);
    TouchedBy(g, block, a, k);
    assert p == Wrap(2 * k, 2 * n) || p == Wrap(2 * k + 1, 2 * n);
    FinishedTouches(g, s.new_, s.moved, a, EndOf(g, block, a), p);
  }

  lemma FinishedTouches(g: Generation, new_: seq<Slot>, moved: set<nat>, start: nat, end: nat, p: nat)
    requires g.Valid() && |new_| == 2 * g.Size() && start <= end <= g.Size()
    requires WorkFits(g, new_, moved, start, end, Finished) && p < |new_| && Touches(g, start, end, p)
    ensures new_[p] == NewIndex(g)[p]
  {
  }

  lemma FinishedBlock(g: Generation, block: nat, s: State, a: nat)
    requires Inv(g, block, s) && Completed(g, s) && a in s.owner
    ensures WorkFits(g, s.new_, s.moved, a, EndOf(g, block, a), Finished)
  {
    hide WorkFits;
    assert BlockFits(g, block, s, a);
    assert Idle(s, s.owner[a]);
  }

  function LiveSlots(g: Generation): set<nat> {
    set x | 0 <= x < g.Size() && g.index[x].Node?
  }

  lemma AllMoved(g: Generation, block: nat, s: State)
    requires Inv(g, block, s) && Completed(g, s)
    ensures s.moved == LiveSlots(g)
  {
    forall x | x in LiveSlots(g)
      ensures x in s.moved
    {
      SlotMoved(g, block, s, x);
    }
  }

  lemma SlotMoved(g: Generation, block: nat, s: State, x: nat)
    requires Inv(g, block, s) && Completed(g, s) && x in LiveSlots(g)
    ensures x in s.moved
  {
    hide WorkFits, Blocks, Completed, Phases;
    NextEmptyFacts(g);
    var n := g.Size();
    var k := if x < NextEmpty(g, 0) then x + n else x;
    var a := BlockAt(g, block, s, k);
    FinishedMoves(g, s.new_, s.moved, block, a, k);
  }

  lemma FinishedMoves(g: Generation, new_: seq<Slot>, moved: set<nat>, block: nat, a: nat, k: nat)
    requires g.Valid() && |new_| == 2 * g.Size() && block >= 1 && a < g.Size() && InLap(g, k) && k < 2 * g.Size()
    requires WorkFits(g, new_, moved, a, EndOf(g, block, a), Finished)
    requires a <= LastEmpty(g, k) < a + block && g.Laps()[k].Node?
    ensures Wrap(k, g.Size()) in moved
  {
    LastEmptyInside(g, k);
    BlockRange(g, a, EndOf(g, block, a));
    assert NextEmpty(g, a) <= k < NextEmpty(g, EndOf(g, block, a));
  }

  // Completion is safe although the scan is not atomic: in every run, with participants joining and
  // leaving at any time, once node_migration_done is set every block has been claimed and finished,
  // so the new index is complete, whatever it held at the start; and each live node was moved once.
  lemma CompletionIsSafe(g: Generation, block: nat, run: seq<State>)
    requires Run(g, block, run) && run[|run| - 1].doneEvent
    ensures run[|run| - 1].new_ == NewIndex(g)
    ensures Total(run[|run| - 1].ps) == |LiveSlots(g)|
    ensures WellFormed(run[|run| - 1].new_, g.log + 1, g.rehash) && HasEmpty(run[|run| - 1].new_)
    ensures Locations(run[|run| - 1].new_) == Locations(g.index)
  {
    hide WorkFits, Claims, MovedOnce, Protocol;
    var s := run[|run| - 1];
    RunInv(g, block, run);
    forall p | 0 <= p < 2 * g.Size()
      ensures s.new_[p] == NewIndex(g)[p]
    {
      FinalSlot(g, block, s, p);
    }
    AllMoved(g, block, s);
    NewIndexWellFormed(g);
  }

  // No probe reads a slot of the uninitialised index: what it reads is decided by the old index alone.
  lemma ProbesReadInitialised(g: Generation, block: nat, run: seq<State>, w: nat, start: nat, t: bool, i: nat, d: nat)
    requires Run(g, block, run) && w < |run[|run| - 1].ps| && run[|run| - 1].ps[w].pc == Busy(start, Probe(t, i, d))
    ensures i < 2 * g.Size() && g.Laps()[i].Node? && NewHome(g, i) + d < 4 * g.Size()
    ensures |run[|run| - 1].new_| == 2 * g.Size()
    ensures run[|run| - 1].new_[ProbedSlot(g, i, d)] == Cells(g, i)[NewHome(g, i) + d]
  {
    hide Inv, Blocks;
    var s := run[|run| - 1];
    RunInv(g, block, run);
    WorkFitsNow(g, block, s, w, start, Probe(t, i, d));
    MoveIs(g, i);
    ProbedSlotInCells(g, s.new_, s.moved, start, EndOf(g, block, start), t, i, d);
    ProbedCell(g, s.new_, s.moved, start, EndOf(g, block, start), t, i, Moves(g)[i].home + d);
  }

  // Nobody waits for ever: while the event is unset and some participant waits for it, another
  // participant has a step to take. And the two state CASes of common_resize never fail.
  lemma MigrationNeverStuck(g: Generation, block: nat, run: seq<State>, w: nat)
    requires Run(g, block, run) && w < |run[|run| - 1].ps|
    ensures var s := run[|run| - 1];
            && (s.ps[w].pc.Waiting? && !s.doneEvent ==>
                  exists v :: 0 <= v < |s.ps| && Enabled(s, v) && Active(s.ps[v]))
            && (s.ps[w].pc.Entering? ==> s.ps[w].state == 0)
            && (s.ps[w].pc.Leaving? ==> s.ps[w].state == 1)
  {
    hide Blocks;
    var s := run[|run| - 1];
    RunInv(g, block, run);
    assert Protocol(g, s, w);
    if s.ps[w].pc.Waiting? && !s.doneEvent {
      assert s.ps[w].state == 2;
      var v :| 0 <= v < |s.ps| && Active(s.ps[v]);
      assert Enabled(s, v);
    }
  }
}
