// DictMachine and Allocator together: the entries that the dict's insertions use are those that the allocator
// hands out, whatever they are. From a start in which reservations are exclusive, what DictMachine asks of a
// reservation always holds, and each part of a joint run is a run of its own machine.
module DictAllocator {
  import opened Arith
  import opened Options
  import opened MapSpec
  import opened ProbeIndex
  import opened NodeCodec
  import opened DictMachine
  import opened DictInvariant
  import opened StepInvariant
  import A = Allocator
  import AI = AllocatorInvariant

  datatype Joint = Joint(dict: State, alloc: A.State)

  // The entry that a thread has reserved for its insertion.
  function LocOf(pc: Pc): Option<nat> {
    match pc
    case Probe(_, _, _, loc) => loc
    case Load(_, _, _, loc, _) => loc
    case Compare(_, _, _, loc, _, _) => loc
    case Swap(_, _, _, loc, _, _) => loc
    case Reload(_, _, _, loc, _) => loc
    case Publish(_, _, _, entry) => Some(entry)
    case _ => None
  }

  // The entry that a thread holds in the allocator.
  function Held(a: A.State, t: nat): nat
    requires t < |a.threads|
  {
    if a.threads[t].buffer.used > 0 then A.Popped(a, t) else 0
  }

  ghost predicate CanStep(s: Joint, t: nat) {
    && Shaped(s.dict) && t < |s.dict.threads| == |s.alloc.threads| && InRange(s.dict, s.dict.threads[t].pc)
    && s.alloc.bs > 0
  }

  // A step of get_empty_entry, which does not touch the index.
  ghost predicate Allocates(c: Config, s: Joint, s': Joint, t: nat)
    requires CanStep(s, t)
  {
    && s.dict.threads[t].pc.Reserve? && !s.alloc.threads[t].pc.Holding? && !s.alloc.threads[t].pc.MustGrow?
    && s' == s.(alloc := A.Step(s.alloc, t, A.Choice(c.hash(s.dict.threads[t].pc.op.key), false)))
  }

  // It has returned an entry, whatever that is, and the insertion begins.
  ghost predicate Begins(c: Config, s: Joint, s': Joint, t: nat, ch: Choice)
    requires CanStep(s, t)
  {
    && s.dict.threads[t].pc.Reserve? && s.alloc.threads[t].pc.Holding? && !ch.grow && ch.loc == Held(s.alloc, t)
    && s' == s.(dict := Step(c, s.dict, t, ch))
  }

  // It has returned none.
  ghost predicate GivesUp(c: Config, s: Joint, s': Joint, t: nat, ch: Choice)
    requires CanStep(s, t)
  {
    && s.dict.threads[t].pc.Reserve? && s.alloc.threads[t].pc.MustGrow? && ch.grow
    && s' == Joint(Step(c, s.dict, t, ch), A.Step(s.alloc, t, A.Choice(0, false)))
  }

  // Any other step. When the thread is through with its entry, the entry was published or goes back to its
  // buffer; when a new generation is published, it has copied the pages.
  ghost predicate Proceeds(c: Config, s: Joint, s': Joint, t: nat, ch: Choice)
    requires CanStep(s, t)
  {
    var pc := s.dict.threads[t].pc;
    && !pc.Reserve? && Enabled(c, s.dict, t, ch) && s'.dict == Step(c, s.dict, t, ch) && t < |s'.dict.threads|
    && if LocOf(pc).Some? && LocOf(s'.dict.threads[t].pc).None?
       then s'.alloc == A.Step(s.alloc, t, A.Choice(0, pc.Publish?))
       else if pc.Migrating? then A.CopiesPages(s.alloc, s'.alloc)
       else s'.alloc == s.alloc
  }

  ghost predicate Moves(c: Config, s: Joint, s': Joint, t: nat, ch: Choice) {
    && CanStep(s, t)
    && (Allocates(c, s, s', t) || Begins(c, s, s', t, ch) || GivesUp(c, s, s', t, ch) || Proceeds(c, s, s', t, ch))
  }

  // The two machines start from the same initial dict, or from none.
  ghost predicate Start(c: Config, s: Joint) {
    && Init(c, s.dict) && A.Init(s.alloc) && s.alloc.bs > 0
    && |s.dict.threads| == |s.alloc.threads| && s.alloc.len == |s.dict.abs|
    && |s.dict.metas[0].index| == A.ENTRIES_IN_PAGE * |s.alloc.pages|
  }

  ghost predicate JointNext(c: Config, s: Joint, s': Joint) {
    exists t: nat, ch :: Moves(c, s, s', t, ch)
  }

  ghost predicate JointRun(c: Config, run: seq<Joint>) {
    run != [] && Start(c, run[0]) && forall i :: 0 <= i < |run| - 1 ==> JointNext(c, run[i], run[i + 1])
  }

  // The length of the initial dict is one for which reservations are exclusive.
  predicate SafeStart(run: seq<Joint>) {
    run != [] && run[0].alloc.bs > 0 && AI.Safe(run[0].alloc)
  }

  // ---- the invariant ----

  // A thread with a reserved entry holds it in the allocator, and one outside an insertion holds nothing.
  predicate Paired(pc: Pc, a: A.State, t: nat)
    requires t < |a.threads|
  {
    if pc.Reserve? then true
    else if LocOf(pc).Some? then a.threads[t].pc.Holding? && Held(a, t) == LocOf(pc).value
    else a.threads[t].pc.Out?
  }

  ghost predicate OwnedHeld(d: State, a: A.State) {
    forall l :: l in d.owned ==> AI.Has(a, d.owned[l], l)
  }

  ghost predicate Agree(s: Joint) {
    && s.dict.metas != [] && |s.dict.threads| == |s.alloc.threads|
    && s.dict.published == s.alloc.published && OwnedHeld(s.dict, s.alloc)
    && |s.dict.metas[Current(s.dict)].index| == A.ENTRIES_IN_PAGE * |s.alloc.pages|
    && forall t :: 0 <= t < |s.dict.threads| ==> Paired(s.dict.threads[t].pc, s.alloc, t)
  }

  ghost predicate JointInv(c: Config, s: Joint) {
    Inv(c, s.dict) && AI.Inv(s.alloc) && s.alloc.bs > 0 && AI.Safe(s.alloc) && Agree(s)
  }

  // ---- what a step does to the dict's reservations ----

  // Outside Reserve, Publish and the publication of a generation nothing happens to them.
  ghost predicate Shifts(d: State, d': State, t: nat) {
    && t < |d.threads| == |d'.threads| && (forall u :: 0 <= u < |d.threads| && u != t ==> d'.threads[u] == d.threads[u])
    && var pc, pc' := d.threads[t].pc, d'.threads[t].pc;
       && (LocOf(pc').None? || LocOf(pc') == LocOf(pc))
       && (if LocOf(pc').None? && pc.Publish?
           then d'.published == d.published + {pc.entry} && d'.owned == d.owned - {pc.entry}
           else d'.published == d.published && d'.owned == d.owned)
       && (!pc.Migrating? ==>
             |d'.metas| == |d.metas| && forall g :: 0 <= g < |d.metas| ==> |d'.metas[g].index| == |d.metas[g].index|)
  }

  lemma GotoShifts(d: State, t: nat, pc': Pc)
    requires t < |d.threads| && !d.threads[t].pc.Publish? && !d.threads[t].pc.Migrating?
    requires LocOf(pc').None? || LocOf(pc') == LocOf(d.threads[t].pc)
    ensures Shifts(d, Goto(d, t, pc'), t)
  {
  }

  lemma ProbeNextShifts(c: Config, log: nat, op: Op, g: nat, d: nat, loc: Option<nat>, slot: Slot)
    requires LogSize(log)
    ensures var pc := ProbeNext(c, log, op, g, d, loc, slot); LocOf(pc).None? || LocOf(pc) == loc
  {
  }

  lemma ProbeShifts(c: Config, d: State, t: nat, ch: Choice, d': State)
    requires Takes(c, d, t, ch, d') && d.threads[t].pc.Probe?
    ensures Shifts(d, d', t)
  {
    hide Inv, Enabled, Step, ProbeNext, Shifts, Goto;
    ProbeIs(c, d, t, ch, d');
    var pc := d.threads[t].pc;
    if pc.distance < |d.metas[pc.g].index| {
      var slot := d.metas[pc.g].index[SlotNo(c, d, pc.op.key, pc.g, pc.distance)];
      ProbeNextShifts(c, d.metas[pc.g].log, pc.op, pc.g, pc.distance, pc.loc, slot);
      GotoShifts(d, t, ProbeNext(c, d.metas[pc.g].log, pc.op, pc.g, pc.distance, pc.loc, slot));
    } else {
      GotoShifts(d, t, if pc.op.CompareAndSet? then Drop(Again(pc.op), pc.g, true)
                       else Finish(pc.op, pc.g, AbsentResult(pc.op)));
    }
  }

  lemma WithValueShifts(op: Op, g: nat, d: nat, loc: Option<nat>, x: nat, v: Value)
    ensures var pc := WithValue(op, g, d, loc, x, v); LocOf(pc).None? || LocOf(pc) == loc
  {
  }

  lemma LoadShifts(c: Config, d: State, t: nat, ch: Choice, d': State)
    requires Takes(c, d, t, ch, d') && d.threads[t].pc.Load?
    ensures Shifts(d, d', t)
  {
    hide Inv, Enabled, Step;
    LoadIs(c, d, t, ch, d');
  }

  lemma CompareShifts(c: Config, d: State, t: nat, ch: Choice, d': State)
    requires Takes(c, d, t, ch, d') && d.threads[t].pc.Compare?
    ensures Shifts(d, d', t)
  {
    hide Inv, Enabled, Step, WithValue;
    CompareIs(c, d, t, ch, d');
    var pc := d.threads[t].pc;
    WithValueShifts(pc.op, pc.g, pc.distance, pc.loc, pc.x, pc.v);
  }

  lemma ReloadShifts(c: Config, d: State, t: nat, ch: Choice, d': State)
    requires Takes(c, d, t, ch, d') && d.threads[t].pc.Reload?
    ensures Shifts(d, d', t)
  {
    hide Inv, Enabled, Step, WithValue, Shifts, Goto;
    ReloadIs(c, d, t, ch, d');
    var pc := d.threads[t].pc;
    if pc.x in d.entries && d.entries[pc.x].value.Some? {
      var v := d.entries[pc.x].value.value;
      WithValueShifts(pc.op, pc.g, pc.distance, pc.loc, pc.x, v);
      GotoShifts(d, t, WithValue(pc.op, pc.g, pc.distance, pc.loc, pc.x, v));
    } else if pc.op.CompareAndSet? && pc.op.expected.Any? {
      GotoShifts(d, t, Probe(pc.op, pc.g, pc.distance + 1, pc.loc));
    } else {
      GotoShifts(d, t, Unlock(pc.op, pc.g, AbsentResult(pc.op)));
    }
  }

  lemma SwapShifts(c: Config, d: State, t: nat, ch: Choice, d': State)
    requires Takes(c, d, t, ch, d') && d.threads[t].pc.Swap?
    ensures Shifts(d, d', t)
  {
    hide Inv, Enabled, Step, SwapStep, Shifts;
    SwapIs(c, d, t, ch, d');
    SwapStepShifts(d, t, d');
  }

  lemma SwapStepShifts(d: State, t: nat, d': State)
    requires t < |d.threads| && d.threads[t].pc.Swap?
    requires var pc := d.threads[t].pc; d' == SwapStep(d, t, pc.op, pc.g, pc.distance, pc.loc, pc.x, pc.v)
    ensures Shifts(d, d', t)
  {
  }

  lemma PublishShifts(c: Config, d: State, t: nat, ch: Choice, d': State)
    requires Takes(c, d, t, ch, d') && d.threads[t].pc.Publish?
    ensures Shifts(d, d', t)
  {
    hide Inv, Enabled, Step, PublishStep, Shifts;
    PublishIs(c, d, t, ch, d');
    PublishStepShifts(c, d, t, d');
  }

  lemma PublishStepShifts(c: Config, d: State, t: nat, d': State)
    requires Shaped(d) && t < |d.threads| && d.threads[t].pc.Publish?
    requires var pc := d.threads[t].pc;
             pc.g < |d.metas| && pc.op.CompareAndSet? && d' == PublishStep(c, d, t, pc.op, pc.g, pc.distance, pc.entry)
    ensures Shifts(d, d', t)
  {
    hide SlotNo;
  }

  lemma BuryShifts(c: Config, d: State, t: nat, ch: Choice, d': State)
    requires Takes(c, d, t, ch, d') && d.threads[t].pc.Bury?
    ensures Shifts(d, d', t)
  {
    hide Inv, Enabled, Step, BuryStep, Shifts;
    BuryIs(c, d, t, ch, d');
    BuryStepShifts(c, d, t, d');
  }

  lemma BuryStepShifts(c: Config, d: State, t: nat, d': State)
    requires Shaped(d) && t < |d.threads| && d.threads[t].pc.Bury?
    requires var pc := d.threads[t].pc; pc.g < |d.metas| && d' == BuryStep(c, d, t, pc.op, pc.g, pc.distance, pc.x)
    ensures Shifts(d, d', t)
  {
    hide SlotNo, Shaped;
  }

  lemma LeadShifts(c: Config, d: State, t: nat, ch: Choice, d': State)
    requires Takes(c, d, t, ch, d') && d.threads[t].pc.Lead?
    ensures Shifts(d, d', t)
  {
    hide Inv, Enabled, Step, LeadStep, Shifts;
    LeadIs(c, d, t, ch, d');
    LocksShift(d, t, d');
  }

  lemma ReleaseShifts(c: Config, d: State, t: nat, ch: Choice, d': State)
    requires Takes(c, d, t, ch, d') && d.threads[t].pc.Release?
    ensures Shifts(d, d', t)
  {
    hide Inv, Enabled, Step, ReleaseStep, Shifts;
    ReleaseIs(c, d, t, ch, d');
    LocksShift(d, t, d');
  }

  lemma LocksShift(d: State, t: nat, d': State)
    requires t < |d.threads| && (d.threads[t].pc.Lead? || d.threads[t].pc.Release?)
    requires var pc := d.threads[t].pc;
             d' == if pc.Lead? then LeadStep(d, t, pc.cont, pc.g, pc.k) else ReleaseStep(d, t, pc.cont, pc.k)
    ensures Shifts(d, d', t)
  {
  }

  lemma EnterShifts(c: Config, d: State, t: nat, ch: Choice, d': State)
    requires Takes(c, d, t, ch, d')
    requires var pc := d.threads[t].pc; pc.TryLock? || pc.HelpCheck? || pc.Block? || pc.Check? || pc.Drop? || pc.Unlock?
    ensures Shifts(d, d', t)
  {
    hide Inv, Enabled, Counted;
  }

  lemma OutsideShifts(c: Config, d: State, t: nat, ch: Choice, d': State)
    requires Takes(c, d, t, ch, d')
    requires var pc := d.threads[t].pc;
             pc.Idle? || pc.Fetch? || pc.Return? || pc.GrowFetch? || pc.Elect? || pc.Follow? || pc.Migrating?
    ensures Shifts(d, d', t)
  {
    hide Inv, Enabled;
  }

  lemma StepShifts(c: Config, d: State, t: nat, ch: Choice, d': State)
    requires t < |d.threads| && Takes(c, d, t, ch, d') && !d.threads[t].pc.Reserve?
    ensures Shifts(d, d', t)
  {
    hide Takes, Shifts;
    match d.threads[t].pc {
      case Probe(_, _, _, _) => ProbeShifts(c, d, t, ch, d');
      case Load(_, _, _, _, _) => LoadShifts(c, d, t, ch, d');
      case Compare(_, _, _, _, _, _) => CompareShifts(c, d, t, ch, d');
      case Reload(_, _, _, _, _) => ReloadShifts(c, d, t, ch, d');
      case Swap(_, _, _, _, _, _) => SwapShifts(c, d, t, ch, d');
      case Publish(_, _, _, _) => PublishShifts(c, d, t, ch, d');
      case Bury(_, _, _, _) => BuryShifts(c, d, t, ch, d');
      case Lead(_, _, _) => LeadShifts(c, d, t, ch, d');
      case Release(_, _) => ReleaseShifts(c, d, t, ch, d');
      case TryLock(_, _) => EnterShifts(c, d, t, ch, d');
      case HelpCheck(_, _) => EnterShifts(c, d, t, ch, d');
      case Block(_, _) => EnterShifts(c, d, t, ch, d');
      case Check(_, _) => EnterShifts(c, d, t, ch, d');
      case Drop(_, _, _) => EnterShifts(c, d, t, ch, d');
      case Unlock(_, _, _) => EnterShifts(c, d, t, ch, d');
      case _ => OutsideShifts(c, d, t, ch, d');
    }
  }

  // ---- what a step does to the allocator's buffers ----

  // Nobody loses an entry, except `gone`.
  ghost predicate KeepsHas(a: A.State, a': A.State, t: nat, gone: Option<nat>) {
    && t < |a.threads| == |a'.threads| && |a'.pages| == |a.pages|
    && (forall u :: 0 <= u < |a.threads| && u != t ==> a'.threads[u] == a.threads[u])
    && (forall u: nat, x: nat :: AI.Has(a, u, x) && gone != Some(x) ==> AI.Has(a', u, x))
  }

  // get_empty_entry only gains entries: it pops the next one of the buffer,
  lemma PopKeeps(a: A.State, t: nat, ch: A.Choice, a': A.State)
    requires t < |a.threads| && a.bs > 0 && a.threads[t].pc.Out? && a' == A.Step(a, t, ch)
    ensures KeepsHas(a, a', t, None) && a'.published == a.published
  {
  }

  // looks for a block with a buffer that is used up,
  lemma LookKeeps(a: A.State, t: nat, ch: A.Choice, a': A.State)
    requires t < |a.threads| && a.bs > 0 && a' == A.Step(a, t, ch)
    requires var pc := a.threads[t].pc; pc.Scan? || pc.Recheck? || pc.AddPage? || pc.StoreNext? || pc.MustGrow?
    requires a.threads[t].buffer.used == a.threads[t].buffer.size
    ensures KeepsHas(a, a', t, None) && a'.published == a.published
    ensures a.threads[t].pc.MustGrow? ==> a'.threads[t].pc.Out?
  {
    UsedUp(a, t);
  }

  // and takes one.
  lemma TakeKeeps(a: A.State, t: nat, ch: A.Choice, a': A.State)
    requires t < |a.threads| && a.bs > 0 && (a.threads[t].pc.Try? || a.threads[t].pc.Bump?) && a' == A.Step(a, t, ch)
    requires a.threads[t].buffer.used == a.threads[t].buffer.size
    ensures KeepsHas(a, a', t, None) && a'.published == a.published
  {
    UsedUp(a, t);
  }

  lemma UsedUp(a: A.State, t: nat)
    requires t < |a.threads| && a.threads[t].buffer.used == a.threads[t].buffer.size && !a.threads[t].pc.Holding?
    ensures forall x: nat :: !AI.Has(a, t, x)
  {
  }

  lemma AllocateKeeps(a: A.State, t: nat, ch: A.Choice, a': A.State)
    requires t < |a.threads| && a.bs > 0 && AI.ThreadOk(a, t) && !a.threads[t].pc.Holding? && a' == A.Step(a, t, ch)
    ensures KeepsHas(a, a', t, None) && a'.published == a.published
    ensures a.threads[t].pc.MustGrow? ==> a'.threads[t].pc.Out?
  {
    hide AI.Scanned, AI.PageFull, AI.BufferOk, AI.AddsPage, A.Step, KeepsHas;
    match a.threads[t].pc {
      case Out => PopKeeps(a, t, ch, a');
      case Try(_, _, _) => TakeKeeps(a, t, ch, a');
      case Bump(_) => TakeKeeps(a, t, ch, a');
      case _ => LookKeeps(a, t, ch, a');
    }
  }

  // The thread that holds an entry publishes it or puts it back.
  lemma HoldingKeeps(a: A.State, t: nat, publish: bool, a': A.State)
    requires t < |a.threads| && a.bs > 0 && AI.BufferOk(a, t) && a.threads[t].pc.Holding?
    requires a' == A.Step(a, t, A.Choice(0, publish))
    ensures a.threads[t].buffer.used > 0 && AI.Has(a, t, Held(a, t)) && a'.threads[t].pc.Out?
    ensures KeepsHas(a, a', t, if publish then Some(Held(a, t)) else None)
    ensures a'.published == if publish then a.published + {Held(a, t)} else a.published
  {
  }

  lemma AllocStep(a: A.State, t: nat, ch: A.Choice, a': A.State)
    requires AI.Inv(a) && a.bs > 0 && AI.Safe(a) && t < |a.threads| && a' == A.Step(a, t, ch)
    ensures AI.Inv(a') && a'.bs > 0 && AI.Safe(a')
  {
    hide AI.Inv, A.Step, AI.Safe;
    AI.StepInv(a, t, ch, a');
    AI.SameDict(a, a', t);
    SafeStays(a, a');
  }

  lemma SafeStays(a: A.State, a': A.State)
    requires a.bs > 0 && AI.Safe(a) && a'.bs == a.bs && a'.len == a.len
    ensures AI.Safe(a')
  {
  }

  // ---- joint steps ----

  lemma ThreadFine(a: A.State, t: nat)
    requires AI.Inv(a) && a.bs > 0 && t < |a.threads|
    ensures AI.ThreadOk(a, t)
  {
  }

  lemma HeldSame(a: A.State, a': A.State, u: nat, pc: Pc)
    requires u < |a.threads| == |a'.threads| && a'.threads[u] == a.threads[u] && Paired(pc, a, u)
    ensures Paired(pc, a', u)
  {
  }

  lemma AllocatesKeeps(c: Config, s: Joint, s': Joint, t: nat)
    requires JointInv(c, s) && CanStep(s, t) && Allocates(c, s, s', t)
    ensures JointInv(c, s') && A.Next(s.alloc, s'.alloc)
  {
    hide Inv, AI.Inv, A.Step, AI.Has, AI.Safe, AI.ThreadOk, Paired;
    var ch := A.Choice(c.hash(s.dict.threads[t].pc.op.key), false);
    AllocStep(s.alloc, t, ch, s'.alloc);
    ThreadFine(s.alloc, t);
    AllocateKeeps(s.alloc, t, ch, s'.alloc);
    ReservePaired(s.dict.threads[t].pc, s'.alloc, t);
    forall u | 0 <= u < |s'.dict.threads|
      ensures Paired(s'.dict.threads[u].pc, s'.alloc, u)
    {
      if u != t { HeldSame(s.alloc, s'.alloc, u, s.dict.threads[u].pc); }
    }
  }

  lemma ReservePaired(pc: Pc, a: A.State, t: nat)
    requires t < |a.threads| && pc.Reserve?
    ensures Paired(pc, a, t)
  {
  }

  // What DictMachine asks of a reservation.
  lemma HeldReservable(c: Config, s: Joint, t: nat, ch: Choice)
    requires JointInv(c, s) && t < |s.dict.threads| && s.dict.threads[t].pc.Reserve? && s.alloc.threads[t].pc.Holding?
    requires ch.loc == Held(s.alloc, t)
    ensures var pc := s.dict.threads[t].pc;
            && pc.op.CompareAndSet? && pc.g + 1 == |s.dict.metas| && Reservable(s.dict, t, pc.g, ch.loc)
            && Shaped(s.dict) && Enabled(c, s.dict, t, ch)
    ensures AI.Has(s.alloc, t, ch.loc)
  {
    hide Inv, AI.Inv, AI.Safe;
    ReserveWrites(c, s.dict, t);
    HeldFresh(s.alloc, t);
    forall l | l in s.dict.owned && l == ch.loc
      ensures s.dict.owned[l] == t
    {
      OneHolder(s.alloc, s.dict.owned[l], t, l);
    }
  }

  lemma ReserveWrites(c: Config, d: State, t: nat)
    requires Inv(c, d) && t < |d.threads| && d.threads[t].pc.Reserve?
    ensures Shaped(d) && d.threads[t].pc.g + 1 == |d.metas| && d.threads[t].pc.op.CompareAndSet?
  {
    hide Shared, LinInv, ProbeInv;
    assert Local(c, d, t);
    LocalShaped(c, d);
  }

  lemma LocalShaped(c: Config, d: State)
    requires Shared(c, d)
    ensures Shaped(d)
  {
  }

  lemma HeldFresh(a: A.State, t: nat)
    requires AI.Inv(a) && a.bs > 0 && AI.Safe(a) && t < |a.threads| && a.threads[t].pc.Holding?
    ensures AI.Has(a, t, Held(a, t)) && Held(a, t) !in a.published
    ensures 1 <= Held(a, t) < A.ENTRIES_IN_PAGE * |a.pages|
  {
    ThreadFine(a, t);
    var x := Held(a, t);
    assert AI.Has(a, t, x);
    AI.InBlock(a, t, x);
    DivModParts(x, A.ENTRIES_IN_PAGE);
  }

  lemma OneHolder(a: A.State, u: nat, t: nat, x: nat)
    requires AI.Inv(a) && a.bs > 0 && AI.Safe(a) && AI.Has(a, u, x) && AI.Has(a, t, x)
    ensures u == t
  {
    ThreadFine(a, u);
    ThreadFine(a, t);
    AI.Exclusive(a, u, t, x);
  }

  // Two parts of a joint step.
  ghost predicate Projects(c: Config, s: Joint, s': Joint) {
    && (s'.dict == s.dict || Next(c, s.dict, s'.dict))
    && (s'.alloc == s.alloc || A.Next(s.alloc, s'.alloc))
  }

  // The dict's part takes a step of its own.
  lemma DictStep(c: Config, d: State, t: nat, ch: Choice, d': State)
    requires GoodConfig(c) && Inv(c, d) && Shaped(d) && t < |d.threads| && InRange(d, d.threads[t].pc)
    requires Enabled(c, d, t, ch)
    requires d' == Step(c, d, t, ch)
    ensures Takes(c, d, t, ch, d') && Inv(c, d') && Next(c, d, d')
  {
    hide Inv, Enabled, Step, Evolves;
    assert Takes(c, d, t, ch, d');
    StepInv(c, d, t, ch, d');
  }

  // What reserving the entry does.
  lemma ReserveIs(c: Config, d: State, t: nat, ch: Choice, d': State)
    requires Shaped(d) && t < |d.threads| && d.threads[t].pc.Reserve? && d.threads[t].pc.op.CompareAndSet?
    requires InRange(d, d.threads[t].pc)
    requires d' == Step(c, d, t, ch)
    ensures t < |d'.threads| == |d.threads| && d'.metas == d.metas && d'.published == d.published
    ensures forall u :: 0 <= u < |d.threads| && u != t ==> d'.threads[u] == d.threads[u]
    ensures var pc := d.threads[t].pc;
            if ch.grow then d'.owned == d.owned && d'.threads[t].pc == Drop(Again(pc.op), pc.g, true)
            else d'.owned == d.owned[ch.loc := t] && d'.threads[t].pc == Probe(pc.op, pc.g, 0, Some(ch.loc))
  {
  }

  lemma BeginsKeeps(c: Config, s: Joint, s': Joint, t: nat, ch: Choice)
    requires GoodConfig(c) && JointInv(c, s) && CanStep(s, t) && Begins(c, s, s', t, ch)
    ensures JointInv(c, s') && Projects(c, s, s')
  {
    hide Inv, AI.Inv, AI.Has, AI.Safe, Step, Held, Takes, Next, Enabled;
    HeldReservable(c, s, t, ch);
    DictStep(c, s.dict, t, ch, s'.dict);
    ReserveIs(c, s.dict, t, ch, s'.dict);
  }

  lemma GivesUpKeeps(c: Config, s: Joint, s': Joint, t: nat, ch: Choice)
    requires GoodConfig(c) && JointInv(c, s) && CanStep(s, t) && GivesUp(c, s, s', t, ch)
    ensures JointInv(c, s') && Projects(c, s, s')
  {
    hide Inv, AI.Inv, AI.Has, AI.Safe, AI.ThreadOk, Step, A.Step, Takes, Next, Enabled, Paired;
    var ach := A.Choice(0, false);
    ReserveWrites(c, s.dict, t);
    MayGrow(c, s.dict, t, ch);
    DictStep(c, s.dict, t, ch, s'.dict);
    ReserveIs(c, s.dict, t, ch, s'.dict);
    AllocStep(s.alloc, t, ach, s'.alloc);
    ThreadFine(s.alloc, t);
    AllocateKeeps(s.alloc, t, ach, s'.alloc);
    forall u | 0 <= u < |s'.dict.threads|
      ensures Paired(s'.dict.threads[u].pc, s'.alloc, u)
    {
      if u != t {
        HeldSame(s.alloc, s'.alloc, u, s.dict.threads[u].pc);
      } else {
        OutPaired(s'.dict.threads[t].pc, s'.alloc, t);
      }
    }
  }

  lemma MayGrow(c: Config, d: State, t: nat, ch: Choice)
    requires Shaped(d) && t < |d.threads| && d.threads[t].pc.Reserve? && d.threads[t].pc.g + 1 == |d.metas| && ch.grow
    ensures Enabled(c, d, t, ch)
  {
  }

  lemma OutPaired(pc: Pc, a: A.State, t: nat)
    requires t < |a.threads| && LocOf(pc).None? && a.threads[t].pc.Out?
    ensures Paired(pc, a, t)
  {
  }

  // The thread is through with its entry.
  lemma EntryLeft(c: Config, s: Joint, s': Joint, t: nat, ch: Choice)
    requires GoodConfig(c) && JointInv(c, s) && CanStep(s, t) && Proceeds(c, s, s', t, ch)
    requires LocOf(s.dict.threads[t].pc).Some? && LocOf(s'.dict.threads[t].pc).None?
    ensures JointInv(c, s') && Projects(c, s, s')
  {
    hide Inv, AI.Inv, AI.Has, AI.Safe, AI.BufferOk, AI.PcOk, Step, A.Step, Takes, Next, Enabled, Held;
    var pc := s.dict.threads[t].pc;
    var ach := A.Choice(0, pc.Publish?);
    DictStep(c, s.dict, t, ch, s'.dict);
    StepShifts(c, s.dict, t, ch, s'.dict);
    AllocStep(s.alloc, t, ach, s'.alloc);
    ThreadFine(s.alloc, t);
    assert Paired(pc, s.alloc, t);
    HoldingKeeps(s.alloc, t, pc.Publish?, s'.alloc);
    LeavesIndex(s.dict, s'.dict, t);
    forall u | 0 <= u < |s'.dict.threads|
      ensures Paired(s'.dict.threads[u].pc, s'.alloc, u)
    {
      if u != t {
        HeldSame(s.alloc, s'.alloc, u, s.dict.threads[u].pc);
      } else {
        OutPaired(s'.dict.threads[t].pc, s'.alloc, t);
      }
    }
  }

  lemma LeavesIndex(d: State, d': State, t: nat)
    requires Shifts(d, d', t) && d.metas != [] && !d.threads[t].pc.Migrating?
    ensures d'.metas != [] && |d'.metas[Current(d')].index| == |d.metas[Current(d)].index|
  {
  }

  // The leader publishes the next generation: every lock is its own, so no thread is in the allocator.
  lemma AllocatorQuiet(c: Config, s: Joint, t: nat)
    requires JointInv(c, s) && t < |s.dict.threads| && s.dict.threads[t].pc.Migrating?
    ensures forall u :: 0 <= u < |s.alloc.threads| ==> s.alloc.threads[u].pc.Out?
  {
    hide AI.Inv, AI.Has, AI.Safe;
    forall u | 0 <= u < |s.alloc.threads|
      ensures s.alloc.threads[u].pc.Out?
    {
      LockedOut(c, s.dict, t, u);
      assert Paired(s.dict.threads[u].pc, s.alloc, u);
    }
  }

  lemma LockedOut(c: Config, d: State, t: nat, u: nat)
    requires Inv(c, d) && t < |d.threads| && d.threads[t].pc.Migrating? && u < |d.threads|
    ensures !d.threads[u].pc.Reserve? && LocOf(d.threads[u].pc).None?
  {
    hide Shared, LinInv, Skipped, Tracked;
    assert Local(c, d, t) && Local(c, d, u);
    LocalShaped(c, d);
  }

  // The new index is twice as long.
  lemma IndexDoubles(c: Config, d: State, t: nat, ch: Choice, d': State)
    requires Takes(c, d, t, ch, d') && d.threads[t].pc.Migrating? && LockInv(d, t)
    ensures |d'.metas| == |d.metas| + 1 && |d'.metas[Current(d')].index| == 2 * |d.metas[Current(d)].index|
  {
    hide Inv, WellFormed;
    var g := d.threads[t].pc.g;
    WellSized(ch.index, d.metas[g].log + 1, Rehashed(d.entries, c.rehash));
  }

  lemma WellSized(idx: seq<Slot>, log: nat, rehash: nat -> nat)
    requires WellFormed(idx, log, rehash)
    ensures |idx| == Pow2(log)
  {
  }

  lemma GenerationKeeps(c: Config, s: Joint, s': Joint, t: nat, ch: Choice)
    requires GoodConfig(c) && JointInv(c, s) && CanStep(s, t) && Proceeds(c, s, s', t, ch)
    requires s.dict.threads[t].pc.Migrating?
    ensures JointInv(c, s') && Projects(c, s, s')
  {
    hide Inv, AI.Inv, AI.Safe, Step, Enabled, Takes, Next;
    DictStep(c, s.dict, t, ch, s'.dict);
    StepShifts(c, s.dict, t, ch, s'.dict);
    AllocatorQuiet(c, s, t);
    assert A.Regenerates(s.alloc, s'.alloc);
    AI.RegeneratesInv(s.alloc, s'.alloc);
    SafeStays(s.alloc, s'.alloc);
    MigratorLeads(c, s.dict, t);
    IndexDoubles(c, s.dict, t, ch, s'.dict);
  }

  lemma MigratorLeads(c: Config, d: State, t: nat)
    requires Inv(c, d) && t < |d.threads|
    ensures LockInv(d, t)
  {
    hide Shared, LinInv, ProbeInv, LockInv;
    assert Local(c, d, t);
  }

  // Any step that leaves the allocator alone.
  lemma DictMoves(c: Config, s: Joint, s': Joint, t: nat, ch: Choice)
    requires GoodConfig(c) && JointInv(c, s) && CanStep(s, t) && Proceeds(c, s, s', t, ch)
    requires !s.dict.threads[t].pc.Migrating?
    requires (LocOf(s.dict.threads[t].pc).None? || LocOf(s'.dict.threads[t].pc).Some?)
    ensures JointInv(c, s') && Projects(c, s, s')
  {
    hide Inv, AI.Inv, AI.Has, AI.Safe, Step, Enabled, Takes, Next, Held;
    DictStep(c, s.dict, t, ch, s'.dict);
    StepShifts(c, s.dict, t, ch, s'.dict);
    LeavesIndex(s.dict, s'.dict, t);
    assert Paired(s.dict.threads[t].pc, s.alloc, t);
  }

  lemma JointStep(c: Config, s: Joint, s': Joint, t: nat, ch: Choice)
    requires GoodConfig(c) && JointInv(c, s) && Moves(c, s, s', t, ch)
    ensures JointInv(c, s') && Projects(c, s, s')
  {
    hide JointInv, Projects, Allocates, Begins, GivesUp, Proceeds;
    if Allocates(c, s, s', t) {
      AllocatesKeeps(c, s, s', t);
      StaysDict(c, s, s', t);
    } else if Begins(c, s, s', t, ch) {
      BeginsKeeps(c, s, s', t, ch);
    } else if GivesUp(c, s, s', t, ch) {
      GivesUpKeeps(c, s, s', t, ch);
    } else {
      ProceedsKeeps(c, s, s', t, ch);
    }
  }

  lemma StaysDict(c: Config, s: Joint, s': Joint, t: nat)
    requires CanStep(s, t) && Allocates(c, s, s', t) && A.Next(s.alloc, s'.alloc)
    ensures Projects(c, s, s')
  {
  }

  lemma ProceedsKeeps(c: Config, s: Joint, s': Joint, t: nat, ch: Choice)
    requires GoodConfig(c) && JointInv(c, s) && CanStep(s, t) && Proceeds(c, s, s', t, ch)
    ensures JointInv(c, s') && Projects(c, s, s')
  {
    hide JointInv, Projects, Step, Enabled;
    if s.dict.threads[t].pc.Migrating? {
      GenerationKeeps(c, s, s', t, ch);
    } else if LocOf(s.dict.threads[t].pc).Some? && LocOf(s'.dict.threads[t].pc).None? {
      EntryLeft(c, s, s', t, ch);
    } else {
      DictMoves(c, s, s', t, ch);
    }
  }

  lemma StartPublished(c: Config, s: Joint)
    requires Start(c, s)
    ensures s.dict.published == s.alloc.published && s.dict.owned == map[]
  {
    hide WellFormed, A.FirstPages, AI.Safe;
    forall x
      ensures x in s.dict.published <==> x in s.alloc.published
    {
      assert x in s.dict.published <==> x in s.dict.entries;
    }
  }

  lemma StartsOut(c: Config, s: Joint)
    requires Start(c, s)
    ensures forall t :: 0 <= t < |s.dict.threads| ==> Paired(s.dict.threads[t].pc, s.alloc, t)
    ensures |s.dict.metas| == 1
  {
    hide InitialIndex, Stores, AI.Safe;
  }

  lemma StartInv(c: Config, s: Joint)
    requires Start(c, s) && AI.Safe(s.alloc)
    ensures JointInv(c, s)
  {
    hide Inv, AI.Inv, AI.Safe, Init, A.Init, Paired, AI.Has;
    InitInv(c, s.dict);
    AI.InitInv(s.alloc);
    StartPublished(c, s);
    StartsOut(c, s);
  }

  lemma {:induction false} JointRunInv(c: Config, run: seq<Joint>, i: nat)
    requires GoodConfig(c) && JointRun(c, run) && i < |run| && SafeStart(run)
    ensures JointInv(c, run[i])
    ensures i > 0 ==> Projects(c, run[i - 1], run[i])
  {
    hide JointInv, Projects, Start, Moves;
    if i == 0 {
      StartInv(c, run[0]);
    } else {
      JointRunInv(c, run, i - 1);
      assert JointNext(c, run[i - 1], run[i - 1 + 1]);
      var t: nat, ch :| Moves(c, run[i - 1], run[i], t, ch);
      JointStep(c, run[i - 1], run[i], t, ch);
    }
  }

  // ---- what the allocator gives to the dict ----

  // The entry that get_empty_entry returns meets DictMachine's assumption, in every reachable state: it is a
  // location of the current generation, never published, and reserved by nobody else.
  lemma AllocatorSupplies(c: Config, run: seq<Joint>, i: nat, t: nat, ch: Choice)
    requires GoodConfig(c) && JointRun(c, run) && SafeStart(run) && i < |run|
    requires t < |run[i].dict.threads| && t < |run[i].alloc.threads|
    requires run[i].dict.threads[t].pc.Reserve? && run[i].alloc.threads[t].pc.Holding?
    requires ch.loc == Held(run[i].alloc, t)
    ensures var g := run[i].dict.threads[t].pc.g; g + 1 == |run[i].dict.metas| && Reservable(run[i].dict, t, g, ch.loc)
    ensures Shaped(run[i].dict) && Enabled(c, run[i].dict, t, ch)
  {
    hide JointRun, Inv, AI.Inv;
    JointRunInv(c, run, i);
    HeldReservable(c, run[i], t, ch);
  }

  // And the parts of a joint run are runs: of DictMachine and of Allocator, but for steps in which they rest.
  lemma JointIsBoth(c: Config, run: seq<Joint>, i: nat)
    requires GoodConfig(c) && JointRun(c, run) && SafeStart(run) && 0 < i < |run|
    ensures Init(c, run[0].dict) && A.Init(run[0].alloc)
    ensures run[i].dict == run[i - 1].dict || Next(c, run[i - 1].dict, run[i].dict)
    ensures run[i].alloc == run[i - 1].alloc || A.Next(run[i - 1].alloc, run[i].alloc)
  {
    hide JointInv, JointNext, Init, A.Init, Next, A.Next;
    JointRunInv(c, run, i);
  }

  // ---- the dict's part of a joint run ----

  // Its states, without those in which it rests.
  function Dicts(run: seq<Joint>): (ds: seq<State>)
    requires run != []
    ensures ds != [] && ds[0] == run[0].dict && ds[|ds| - 1] == run[|run| - 1].dict
  {
    var n := |run| - 1;
    if n == 0 then [run[0].dict]
    else
      var ds := Dicts(run[..n]);
      if run[n].dict == run[n - 1].dict then ds else ds + [run[n].dict]
  }

  // It is a run of DictMachine: so whatever is proved of those runs holds of the dict with its allocator.
  lemma {:induction false} DictsRun(c: Config, run: seq<Joint>)
    requires GoodConfig(c) && JointRun(c, run) && SafeStart(run)
    ensures Run(c, Dicts(run))
  {
    hide Init, A.Init, Next, JointNext;
    var n := |run| - 1;
    if n > 0 {
      var before := run[..n];
      DictsRun(c, before);
      JointIsBoth(c, run, n);
      var ds := Dicts(before);
      if run[n].dict != run[n - 1].dict {
        assert Next(c, ds[|ds| - 1], run[n].dict);
      }
    } else {
      assert Init(c, run[0].dict);
    }
  }
}
