// len() under ResizeProtocol: self->len plus the local counters never loses a key (accessor_len_inc,
// AtomicDict_Len_impl).
module ResizeLength {
  import opened Options
  import opened MapSpec
  import opened ResizeProtocol
  import opened ResizeInvariant
  import opened ResizeSteps
  import opened ResizeProgress

  function SumLocal(a: seq<Accessor>): int {
    if a == [] then 0 else SumLocal(a[..|a| - 1]) + a[|a| - 1].local
  }

  // Keys that a writer has added or removed but not counted yet.
  function Pending(pc: Pc): int {
    match pc
    case Writing(CountLoad(_, inc)) => inc
    case Writing(CountStore(_, inc, _)) => inc
    case _ => 0
  }

  function SumPending(ts: seq<Thread>): int {
    if ts == [] then 0 else SumPending(ts[..|ts| - 1]) + Pending(ts[|ts| - 1].pc)
  }

  lemma {:induction false} SumLocalUpdate(a: seq<Accessor>, i: nat, x: Accessor)
    requires i < |a|
    ensures SumLocal(a[i := x]) == SumLocal(a) - a[i].local + x.local
  {
    var n := |a| - 1;
    if i < n {
      SumLocalUpdate(a[..n], i, x);
      assert a[i := x][..n] == a[..n][i := x];
    } else {
      assert a[i := x][..n] == a[..n];
    }
  }

  lemma {:induction false} SumLocalSame(a: seq<Accessor>, b: seq<Accessor>)
    requires |a| == |b| && forall i :: 0 <= i < |a| ==> a[i].local == b[i].local
    ensures SumLocal(a) == SumLocal(b)
  {
    if a != [] {
      SumLocalSame(a[..|a| - 1], b[..|b| - 1]);
    }
  }

  lemma {:induction false} SumLocalZero(a: seq<Accessor>)
    requires forall i :: 0 <= i < |a| ==> a[i].local == 0
    ensures SumLocal(a) == 0
  {
    if a != [] {
      SumLocalZero(a[..|a| - 1]);
    }
  }

  lemma {:induction false} SumPendingUpdate(ts: seq<Thread>, t: nat, th: Thread)
    requires t < |ts|
    ensures SumPending(ts[t := th]) == SumPending(ts) - Pending(ts[t].pc) + Pending(th.pc)
  {
    var n := |ts| - 1;
    if t < n {
      SumPendingUpdate(ts[..n], t, th);
      assert ts[t := th][..n] == ts[..n][t := th];
    } else {
      assert ts[t := th][..n] == ts[..n];
    }
  }

  lemma {:induction false} SumPendingZero(ts: seq<Thread>)
    requires forall t :: 0 <= t < |ts| ==> Pending(ts[t].pc) == 0
    ensures SumPending(ts) == 0
  {
    if ts != [] {
      SumPendingZero(ts[..|ts| - 1]);
    }
  }

  // ---- the invariant ----

  predicate Folds(pc: Pc) {
    pc.Counting? && (pc.count.ClearDirty? || pc.count.ClearLocal?)
  }

  // len() has stored the total and is clearing the local counters.
  predicate Folding(s: State) {
    s.sync.Some? && s.sync.value < |s.threads| && Folds(s.threads[s.sync.value].pc)
  }

  ghost predicate TotalOk(s: State) {
    |s.abs| == if Folding(s) then s.len else s.len + SumLocal(s.accessors) + SumPending(s.threads)
  }

  predicate Dirtying(s: State, v: nat) {
    v < |s.threads| && s.threads[v].pc.Writing? && s.threads[v].pc.write.CountDirty?
  }

  // A clean dict has no local counts, but for a writer about to set len_dirty.
  ghost predicate CleanOk(s: State) {
    !s.dirty && !Folding(s) ==>
      forall i :: 0 <= i < |s.accessors| && s.accessors[i].local != 0 ==> Dirtying(s, s.accessors[i].owner)
  }

  ghost predicate CountOk(s: State, v: nat)
    requires v < |s.threads|
  {
    var th := s.threads[v];
    match th.pc
    case Writing(CountStore(_, _, current)) =>
      th.ix.Some? && th.ix.value < |s.accessors| && current == s.accessors[th.ix.value].local
    case Counting(Sum(k, total)) => k <= |s.accessors| && total == s.len + SumLocal(s.accessors[..k])
    case Counting(StoreLen(total)) => total == s.len + SumLocal(s.accessors)
    case Counting(ClearDirty(total)) => s.len == total
    case Counting(ClearLocal(total, k)) =>
      s.len == total && !s.dirty && k <= |s.accessors| && forall i :: 0 <= i < k ==> s.accessors[i].local == 0
    case Syncing(Counter, UnlockSync(answer)) => answer == |s.abs|
    case _ => true
  }

  ghost predicate LenInv(s: State) {
    TotalOk(s) && CleanOk(s) && forall v :: 0 <= v < |s.threads| ==> CountOk(s, v)
  }

  // ---- steps that count nothing ----

  ghost predicate SameCounts(s: State, s': State, t: nat) {
    && t < |s.threads| == |s'.threads| && s'.threads == s.threads[t := s'.threads[t]]
    && s'.len == s.len && s'.dirty == s.dirty && s'.abs == s.abs
    && |s'.accessors| == |s.accessors|
    && forall i :: 0 <= i < |s.accessors| ==>
         s'.accessors[i].local == s.accessors[i].local && s'.accessors[i].owner == s.accessors[i].owner
  }

  lemma SameSums(s: State, s': State, t: nat)
    requires SameCounts(s, s', t)
    ensures SumLocal(s'.accessors) == SumLocal(s.accessors)
    ensures SumPending(s'.threads) == SumPending(s.threads) - Pending(s.threads[t].pc) + Pending(s'.threads[t].pc)
    ensures forall k :: 0 <= k <= |s.accessors| ==> SumLocal(s'.accessors[..k]) == SumLocal(s.accessors[..k])
  {
    SumPendingUpdate(s.threads, t, s'.threads[t]);
    SumLocalSame(s.accessors, s'.accessors);
    forall k | 0 <= k <= |s.accessors|
      ensures SumLocal(s'.accessors[..k]) == SumLocal(s.accessors[..k])
    {
      SumLocalSame(s.accessors[..k], s'.accessors[..k]);
    }
  }

  lemma NeutralKeeps(s: State, s': State, t: nat)
    requires SameCounts(s, s', t) && Evolves(s, s', t) && LenInv(s)
    requires Pending(s.threads[t].pc) == Pending(s'.threads[t].pc) && !Dirtying(s, t)
    requires !Folds(s.threads[t].pc) && !Folds(s'.threads[t].pc) && CountOk(s', t)
    requires HoldersOk(s) && HoldersOk(s')
    ensures LenInv(s')
  {
    hide GenEvolves, Folds;
    SameSums(s, s', t);
    FoldingSame(s, s', t);
    forall v | 0 <= v < |s'.threads|
      ensures CountOk(s', v)
    {
      if v != t { CountSame(s, s', t, v); }
    }
  }

  lemma FoldingSame(s: State, s': State, t: nat)
    requires Evolves(s, s', t) && HoldersOk(s) && HoldersOk(s') && !Folds(s.threads[t].pc) && !Folds(s'.threads[t].pc)
    ensures Folding(s') == Folding(s)
  {
    hide GenEvolves, Folds;
  }

  lemma CountSame(s: State, s': State, t: nat, v: nat)
    requires SameCounts(s, s', t) && Evolves(s, s', t) && v < |s.threads| && v != t && CountOk(s, v)
    ensures CountOk(s', v)
  {
    hide GenEvolves, LocksEvolve;
    SameSums(s, s', t);
  }

  // ---- steps of a writer ----

  // In the critical section of thread t nobody is inside a synchronous operation.
  lemma NobodyCounts(s: State, t: nat)
    requires Inv(s) && t < |s.threads| && InSection(s.threads[t].pc)
    ensures !Folding(s)
    ensures forall v :: 0 <= v < |s.threads| ==> !HoldsAll(s.threads[v].pc)
  {
    hide Inv;
    forall v | 0 <= v < |s.threads|
      ensures !HoldsAll(s.threads[v].pc)
    {
      if HoldsAll(s.threads[v].pc) && v != t { AllLocked(s, v, t); }
    }
  }

  // And during a synchronous operation nobody is in the critical section.
  lemma NobodyWrites(s: State, u: nat)
    requires Inv(s) && u < |s.threads| && HoldsAll(s.threads[u].pc)
    ensures SumPending(s.threads) == 0 && s.sync == Some(u)
    ensures forall v: nat :: !Dirtying(s, v)
    ensures forall v :: 0 <= v < |s.threads| && v != u ==> !HoldsAll(s.threads[v].pc) && !InSection(s.threads[v].pc)
  {
    hide Inv;
    LocksOf(s, u);
    forall v | 0 <= v < |s.threads| && v != u
      ensures !InSection(s.threads[v].pc) && !HoldsAll(s.threads[v].pc)
    {
      AllLocked(s, u, v);
    }
    SumPendingZero(s.threads);
  }

  // What another thread has counted does not depend on len, len_dirty and the map while nobody counts.
  lemma OtherCounts(s: State, s': State, t: nat, v: nat)
    requires t < |s.threads| == |s'.threads| && s'.threads == s.threads[t := s'.threads[t]]
    requires s'.accessors == s.accessors
    requires v < |s.threads| && v != t && CountOk(s, v) && !HoldsAll(s.threads[v].pc)
    ensures CountOk(s', v)
  {
  }

  lemma SectionKeeps(s: State, t: nat, ch: Choice, s': State)
    requires Takes(s, t, ch, s') && t < |s.threads| && s.threads[t].pc.Writing? && s.threads[t].pc.write.Section?
    requires LenInv(s) && Inv(s') && Evolves(s, s', t)
    ensures LenInv(s')
  {
    hide Inv, Evolves, Atomically, Counted;
    NobodyCounts(s, t);
    CountedIsGrowth(ch.op, s.abs);
    SumPendingUpdate(s.threads, t, s'.threads[t]);
    assert forall v :: Dirtying(s, v) ==> Dirtying(s', v);
    forall v | 0 <= v < |s'.threads|
      ensures CountOk(s', v)
    {
      if v != t { OtherCounts(s, s', t, v); }
    }
  }

  lemma CountStoreKeeps(s: State, t: nat, ch: Choice, s': State)
    requires Takes(s, t, ch, s') && t < |s.threads| && s.threads[t].pc.Writing? && s.threads[t].pc.write.CountStore?
    requires LenInv(s)
    ensures LenInv(s')
  {
    hide Inv;
    NobodyCounts(s, t);
    LocksOf(s, t);
    var i := s.threads[t].ix.value;
    assert CountOk(s, t);
    SumPendingUpdate(s.threads, t, s'.threads[t]);
    SumLocalUpdate(s.accessors, i, s'.accessors[i]);
    StoredElsewhere(s, t, ch, s');
    StoredDirty(s, t, ch, s');
  }

  lemma StoredDirty(s: State, t: nat, ch: Choice, s': State)
    requires Takes(s, t, ch, s') && t < |s.threads| && s.threads[t].pc.Writing? && s.threads[t].pc.write.CountStore?
    requires CleanOk(s) && !Folding(s)
    ensures CleanOk(s')
  {
    hide Inv;
    LocksOf(s, t);
    forall i | 0 <= i < |s'.accessors| && s'.accessors[i].local != 0 && !s'.dirty
      ensures Dirtying(s', s'.accessors[i].owner)
    {
      if i != s.threads[t].ix.value {
        assert Dirtying(s, s.accessors[i].owner);
      }
    }
  }

  lemma StoredElsewhere(s: State, t: nat, ch: Choice, s': State)
    requires Takes(s, t, ch, s') && t < |s.threads| && s.threads[t].pc.Writing? && s.threads[t].pc.write.CountStore?
    requires LenInv(s) && forall v :: 0 <= v < |s.threads| ==> !HoldsAll(s.threads[v].pc)
    ensures |s'.threads| == |s.threads| && forall v :: 0 <= v < |s'.threads| ==> CountOk(s', v)
  {
    hide Inv, TotalOk, CleanOk;
    LocksOf(s, t);
    forall v | 0 <= v < |s'.threads|
      ensures CountOk(s', v)
    {
      LocksOf(s, v);
      assert CountOk(s, v);
    }
  }

  lemma CountDirtyKeeps(s: State, t: nat, ch: Choice, s': State)
    requires Takes(s, t, ch, s') && t < |s.threads| && Dirtying(s, t) && LenInv(s)
    ensures LenInv(s')
  {
    hide Inv;
    NobodyCounts(s, t);
    SumPendingUpdate(s.threads, t, s'.threads[t]);
    forall v | 0 <= v < |s'.threads|
      ensures CountOk(s', v)
    {
      if v != t { OtherCounts(s, s', t, v); }
    }
  }

  lemma LinkKeeps(s: State, t: nat, ch: Choice, s': State)
    requires Takes(s, t, ch, s') && t < |s.threads| && s.threads[t].pc == Joining(Link)
    requires LenInv(s) && Inv(s') && Evolves(s, s', t)
    ensures LenInv(s')
  {
    hide Inv, GenEvolves;
    HoldersIn(s);
    HoldersIn(s');
    FoldingSame(s, s', t);
    SumPendingUpdate(s.threads, t, s'.threads[t]);
    assert s'.accessors[..|s'.accessors| - 1] == s.accessors;
    LinkCounts(s, t, s');
  }

  lemma LinkCounts(s: State, t: nat, s': State)
    requires t < |s.threads| && s.threads[t].pc == Joining(Link) && s' == JoinStep(s, t, Link) && LenInv(s)
    ensures forall v :: 0 <= v < |s'.threads| ==> CountOk(s', v)
  {
    assert s'.accessors[..|s'.accessors| - 1] == s.accessors;
    forall v | 0 <= v < |s'.threads|
      ensures CountOk(s', v)
    {
      if v != t {
        assert CountOk(s, v);
        forall k | 0 <= k <= |s.accessors|
          ensures s'.accessors[..k] == s.accessors[..k]
        {
        }
      }
    }
  }

  lemma HoldersIn(s: State)
    requires Inv(s)
    ensures HoldersOk(s)
  {
  }

  // ---- steps of len() ----

  lemma CountingAlone(s: State, t: nat, s': State)
    requires Inv(s) && t < |s.threads| && s.threads[t].pc.Counting? && s' == CountStep(s, t, s.threads[t].pc.count)
    requires LenInv(s)
    requires CountOk(s', t)
    ensures forall v :: 0 <= v < |s'.threads| ==> CountOk(s', v)
  {
    hide Inv, TotalOk, CleanOk;
    NobodyWrites(s, t);
    forall v | 0 <= v < |s'.threads|
      ensures CountOk(s', v)
    {
      if v != t {
        assert CountOk(s, v);
      }
    }
  }

  lemma ReadLenKeeps(s: State, t: nat, s': State)
    requires Inv(s) && t < |s.threads| && s.threads[t].pc == Counting(ReadLen) && s' == CountStep(s, t, ReadLen)
    requires LenInv(s)
    ensures LenInv(s')
  {
    hide Inv;
    NobodyWrites(s, t);
    SumPendingUpdate(s.threads, t, s'.threads[t]);
    if !s.dirty {
      SumLocalZero(s.accessors);
    }
    CountingAlone(s, t, s');
  }

  lemma SumKeeps(s: State, t: nat, s': State)
    requires Inv(s) && t < |s.threads| && s.threads[t].pc.Counting? && s.threads[t].pc.count.Sum?
    requires s' == CountStep(s, t, s.threads[t].pc.count) && LenInv(s)
    ensures LenInv(s')
  {
    hide Inv;
    NobodyWrites(s, t);
    SumPendingUpdate(s.threads, t, s'.threads[t]);
    var k := s.threads[t].pc.count.k;
    assert CountOk(s, t);
    if k < |s.accessors| {
      assert s.accessors[..k + 1][..k] == s.accessors[..k];
    } else {
      assert s.accessors[..k] == s.accessors;
    }
    CountingAlone(s, t, s');
  }

  lemma StoreLenKeeps(s: State, t: nat, s': State)
    requires Inv(s) && t < |s.threads| && s.threads[t].pc.Counting?
    requires (s.threads[t].pc.count.StoreLen? || s.threads[t].pc.count.ClearDirty?)
    requires s' == CountStep(s, t, s.threads[t].pc.count) && LenInv(s)
    ensures LenInv(s')
  {
    hide Inv;
    NobodyWrites(s, t);
    SumPendingUpdate(s.threads, t, s'.threads[t]);
    assert CountOk(s, t);
    CountingAlone(s, t, s');
  }

  lemma ClearLocalKeeps(s: State, t: nat, s': State)
    requires Inv(s) && t < |s.threads| && s.threads[t].pc.Counting? && s.threads[t].pc.count.ClearLocal?
    requires s' == CountStep(s, t, s.threads[t].pc.count) && LenInv(s)
    ensures LenInv(s')
  {
    hide Inv;
    NobodyWrites(s, t);
    SumPendingUpdate(s.threads, t, s'.threads[t]);
    assert CountOk(s, t);
    if s.threads[t].pc.count.k >= |s.accessors| {
      SumLocalZero(s.accessors);
    }
    CountingAlone(s, t, s');
  }

  lemma CountKeeps(s: State, t: nat, s': State)
    requires Inv(s) && t < |s.threads| && s.threads[t].pc.Counting? && s' == CountStep(s, t, s.threads[t].pc.count)
    requires LenInv(s)
    ensures LenInv(s')
  {
    hide Inv, LenInv, CountStep;
    match s.threads[t].pc.count {
      case ReadLen => ReadLenKeeps(s, t, s');
      case Sum(_, _) => SumKeeps(s, t, s');
      case StoreLen(_) => StoreLenKeeps(s, t, s');
      case ClearDirty(_) => StoreLenKeeps(s, t, s');
      case ClearLocal(_, _) => ClearLocalKeeps(s, t, s');
    }
  }

  // ---- every step ----

  lemma WriteKeeps(s: State, t: nat, ch: Choice, s': State)
    requires Takes(s, t, ch, s') && t < |s.threads| && s.threads[t].pc.Writing? && Inv(s') && Evolves(s, s', t)
    requires LenInv(s)
    ensures LenInv(s')
  {
    hide Inv, Evolves, LenInv, Step;
    var w := s.threads[t].pc.write;
    if w.Section? {
      SectionKeeps(s, t, ch, s');
    } else if w.CountStore? {
      CountStoreKeeps(s, t, ch, s');
    } else if w.CountDirty? {
      CountDirtyKeeps(s, t, ch, s');
    } else {
      WriteNeutral(s, t, ch, s');
      HoldersIn(s);
      HoldersIn(s');
      NeutralKeeps(s, s', t);
    }
  }

  lemma WriteNeutral(s: State, t: nat, ch: Choice, s': State)
    requires Takes(s, t, ch, s') && t < |s.threads| && s.threads[t].pc.Writing?
    requires var w := s.threads[t].pc.write; !w.Section? && !w.CountStore? && !w.CountDirty?
    ensures SameCounts(s, s', t)
    ensures Pending(s.threads[t].pc) == Pending(s'.threads[t].pc) && !Folds(s'.threads[t].pc) && CountOk(s', t)
  {
    hide Inv;
  }

  lemma PlainKeeps(s: State, t: nat, ch: Choice, s': State)
    requires Takes(s, t, ch, s') && t < |s.threads| && Inv(s') && Evolves(s, s', t) && LenInv(s)
    requires var pc := s.threads[t].pc; !pc.Writing? && !pc.Counting? && pc != Joining(Link)
    ensures LenInv(s')
  {
    hide Inv, Evolves, LenInv, Step;
    PlainNeutral(s, t, ch, s');
    HoldersIn(s);
    HoldersIn(s');
    NeutralKeeps(s, s', t);
  }

  ghost predicate Neutral(s: State, s': State, t: nat) {
    && SameCounts(s, s', t)
    && Pending(s.threads[t].pc) == Pending(s'.threads[t].pc) == 0 && !Folds(s'.threads[t].pc) && CountOk(s', t)
  }

  lemma PlainNeutral(s: State, t: nat, ch: Choice, s': State)
    requires Takes(s, t, ch, s') && t < |s.threads|
    requires var pc := s.threads[t].pc; !pc.Writing? && !pc.Counting? && pc != Joining(Link)
    ensures Neutral(s, s', t)
  {
    hide Inv, Neutral, Enabled, SyncStep, CommonStep, LeadStep;
    match s.threads[t].pc {
      case Syncing(_, _) => SyncNeutral(s, t, ch, s');
      case Common(_, _, _) => CommonNeutral(s, t, ch, s');
      case Leading(_, _) => LeadNeutral(s, t, s');
      case _ => OtherNeutral(s, t, ch, s');
    }
  }

  lemma SyncSame(s: State, t: nat, ch: Choice, s': State)
    requires t < |s.threads| && s.threads[t].pc.Syncing?
    requires s' == SyncStep(s, t, s.threads[t].pc.who, s.threads[t].pc.sync, ch)
    ensures SameCounts(s, s', t)
  {
  }

  lemma SyncNeutral(s: State, t: nat, ch: Choice, s': State)
    requires t < |s.threads| && s.threads[t].pc.Syncing?
    requires s' == SyncStep(s, t, s.threads[t].pc.who, s.threads[t].pc.sync, ch)
    ensures Neutral(s, s', t)
  {
    hide SyncStep, SameCounts;
    SyncSame(s, t, ch, s');
    SyncGoes(s, t, ch, s');
  }

  lemma CommonSame(s: State, t: nat, ch: Choice, s': State)
    requires t < |s.threads| && s.threads[t].pc.Common? && InRange(s, t)
    requires var pc := s.threads[t].pc; s' == CommonStep(s, t, s.threads[t].ix.value, pc.leads, pc.g, pc.phase, ch)
    ensures SameCounts(s, s', t)
    ensures var pc' := s'.threads[t].pc; pc'.Common? || pc'.Leading? || pc'.Growing?
  {
  }

  lemma CommonNeutral(s: State, t: nat, ch: Choice, s': State)
    requires t < |s.threads| && s.threads[t].pc.Common? && InRange(s, t)
    requires var pc := s.threads[t].pc; s' == CommonStep(s, t, s.threads[t].ix.value, pc.leads, pc.g, pc.phase, ch)
    ensures Neutral(s, s', t)
  {
    hide CommonStep;
    CommonSame(s, t, ch, s');
  }

  lemma LeadNeutral(s: State, t: nat, s': State)
    requires t < |s.threads| && s.threads[t].pc.Leading? && InRange(s, t)
    requires s' == LeadStep(s, t, s.threads[t].pc.g, s.threads[t].pc.lead)
    ensures Neutral(s, s', t)
  {
  }

  lemma OtherNeutral(s: State, t: nat, ch: Choice, s': State)
    requires Takes(s, t, ch, s') && t < |s.threads|
    requires var pc := s.threads[t].pc; pc.Idle? || pc.Growing? || (pc.Joining? && !pc.join.Link?)
    ensures Neutral(s, s', t)
  {
    hide Inv, Enabled;
  }

  lemma LenStep(s: State, t: nat, ch: Choice, s': State)
    requires Takes(s, t, ch, s') && Inv(s') && Evolves(s, s', t) && LenInv(s)
    ensures LenInv(s')
  {
    hide Evolves, LenInv, Inv, InRange, Enabled;
    Own(s, t, ch, s');
    var pc := s.threads[t].pc;
    if pc.Writing? {
      WriteKeeps(s, t, ch, s');
    } else if pc.Counting? {
      CountKeeps(s, t, s');
    } else if pc == Joining(Link) {
      LinkKeeps(s, t, ch, s');
    } else {
      PlainKeeps(s, t, ch, s');
    }
  }

  lemma {:induction false} RunLen(run: seq<State>, i: nat)
    requires Run(run) && i < |run|
    ensures LenInv(run[i])
  {
    hide Run, Inv, Takes, Evolves, LenInv;
    RunInv(run, i);
    if i == 0 {
      InitLen(run);
    } else {
      RunLen(run, i - 1);
      var t: nat, ch :| Takes(run[i - 1], t, ch, run[i]) && Evolves(run[i - 1], run[i], t);
      LenStep(run[i - 1], t, ch, run[i]);
    }
  }

  lemma InitLen(run: seq<State>)
    requires Run(run)
    ensures LenInv(run[0])
  {
    SumPendingZero(run[0].threads);
  }

  // ---- what len() answers ----

  // Whenever nobody is in a critical section or a count, self->len and the local counters add up to the
  // number of keys, and a dict that is not dirty has only zero local counters.
  lemma LengthConserved(run: seq<State>, i: nat)
    requires Run(run) && i < |run|
    requires forall v :: 0 <= v < |run[i].threads| ==>
               !InSection(run[i].threads[v].pc) && !run[i].threads[v].pc.Counting?
    ensures |run[i].abs| == run[i].len + SumLocal(run[i].accessors)
    ensures !run[i].dirty ==> forall j :: 0 <= j < |run[i].accessors| ==> run[i].accessors[j].local == 0
  {
    hide Run;
    RunLen(run, i);
    SumPendingZero(run[i].threads);
  }

  // The answer of len() is the number of keys while it holds every lock.
  lemma LenIsExact(run: seq<State>, i: nat, t: nat, answer: int)
    requires Run(run) && i < |run| && t < |run[i].threads|
    requires run[i].threads[t].pc == Syncing(Counter, UnlockSync(answer))
    ensures answer == |run[i].abs| == run[i].len + SumLocal(run[i].accessors)
    ensures forall j :: 0 <= j < |run[i].accessors| ==> run[i].accessors[j].mutex == Some(t)
  {
    hide Run, Inv;
    RunInv(run, i);
    RunLen(run, i);
    LocksOf(run[i], t);
    NobodyWrites(run[i], t);
    assert CountOk(run[i], t);
    assert forall j :: 0 <= j < |run[i].accessors| ==> HoldsAccessor(run[i].threads[t].pc, run[i].threads[t].ix, j);
  }
}
