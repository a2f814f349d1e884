// Every step of DictMachine keeps its invariant: first the probes, then step by step.
module StepInvariant {
  import opened Arith
  import opened NodeCodec
  import opened Options
  import opened MapSpec
  import opened ProbeIndex
  import opened DictMachine
  import opened DictInvariant
  import opened DictSteps

  // ---- an index always has an empty slot ----

  lemma AlwaysEmptySlot(m: Meta, published: set<nat>)
    requires FilledOk(m, published) && |m.index| >= 1
    ensures HasEmpty(m.index)
  {
    var n := |m.index|;
    if !HasEmpty(m.index) {
      var i, j := Pigeonhole(seq(n, p requires 0 <= p < n => m.filled[p] - 1), n - 1);
      assert false;
    }
  }

  // ---- probes ----

  lemma HomeOk(c: Config, k: Key, log: nat)
    requires GoodConfig(c) && LogSize(log)
    ensures HomeOf(c, k, log) < Pow2(log)
  {
    HomeInRange(c.rehash(c.hash(k)), log);
  }

  // A probe never goes round the whole index.
  lemma NotExhausted(c: Config, s: State, k: Key, g: nat, d: nat)
    requires Shared(c, s) && g < |s.metas| && Skipped(c, s, k, g, d)
    ensures d < |s.metas[g].index|
  {
    assert IndexOk(c, s, g);
    AlwaysEmptySlot(s.metas[g], s.published);
    var p :| 0 <= p < |s.metas[g].index| && s.metas[g].index[p].Empty?;
    assert Gap(HomeOf(c, k, s.metas[g].log), p, |s.metas[g].index|) < |s.metas[g].index|;
  }

  // Reaching an empty slot means that no live entry of the key is in the index.
  lemma EmptyMeansAbsent(c: Config, s: State, k: Key, g: nat, d: nat)
    requires Shared(c, s) && g < |s.metas| && Skipped(c, s, k, g, d) && d < |s.metas[g].index|
    requires s.metas[g].index[SlotNo(c, s, k, g, d)].Empty?
    ensures k in s.at ==> s.at[k] !in Locations(s.metas[g].index)
  {
    var idx, n, w := s.metas[g].index, |s.metas[g].index|, HomeOf(c, k, s.metas[g].log);
    forall p: nat
      ensures !Matches(idx, s.entries, k, p)
    {
      if Matches(idx, s.entries, k, p) {
        MatchBeforeEmpty(c, s, k, g, d, p);
      }
    }
    if k in s.at {
      forall p: nat | p < n && idx[p].Node?
        ensures idx[p].index != s.at[k]
      {
        assert !Matches(idx, s.entries, k, p);
      }
    }
  }

  lemma MatchBeforeEmpty(c: Config, s: State, k: Key, g: nat, d: nat, p: nat)
    requires Shared(c, s) && g < |s.metas| && HomeOf(c, k, s.metas[g].log) < |s.metas[g].index|
    requires d < |s.metas[g].index|
    requires s.metas[g].index[SlotNo(c, s, k, g, d)].Empty?
    requires Matches(s.metas[g].index, s.entries, k, p)
    ensures Gap(HomeOf(c, k, s.metas[g].log), p, |s.metas[g].index|) < d
  {
    hide WellFormed, FilledOk, MapOk, BuryDistinct;
    var idx, log, f := s.metas[g].index, s.metas[g].log, Rehashed(s.entries, c.rehash);
    assert IndexOk(c, s, g);
    assert idx[p].index in Locations(idx);
    FitsAt(idx, log, f, p);
    assert f(idx[p].index) == c.rehash(c.hash(k));
    ProbeMeetsNode(idx, log, f, p, d);
  }

  lemma FitsAt(idx: seq<Slot>, log: nat, rehash: nat -> nat, p: nat)
    requires WellFormed(idx, log, rehash) && p < |idx| && idx[p].Node?
    ensures LogSize(log) && |idx| == Pow2(log) && NodeFits(idx, log, rehash, p)
  {
  }

  lemma SkipOne(c: Config, s: State, k: Key, g: nat, d: nat)
    requires Shaped(s) && g < |s.metas| && Skipped(c, s, k, g, d) && d < |s.metas[g].index|
    requires var p := SlotNo(c, s, k, g, d);
             !s.metas[g].index[p].Empty? && !Matches(s.metas[g].index, s.entries, k, p)
    ensures Skipped(c, s, k, g, d + 1)
  {
    var n, w := |s.metas[g].index|, HomeOf(c, k, s.metas[g].log);
    forall p | 0 <= p < n && Gap(w, p, n) < d + 1
      ensures !s.metas[g].index[p].Empty? && !Matches(s.metas[g].index, s.entries, k, p)
    {
      if Gap(w, p, n) == d {
        assert p == Wrap(w + d, n);
      }
    }
  }

  // What a walk consists of does not mention the thread's pc.
  lemma WalkOn(c: Config, s: State, s': State, t: nat, op: Op, g: nat, d: nat, d': nat, loc: Option<nat>)
    requires Quiet(s, s', t) && Shaped(s) && s'.threads[t].start == s.threads[t].start < |s.log|
    requires Walking(c, s, t, op, g, d, loc) && Skipped(c, s, op.key, g, d')
    ensures Walking(c, s', t, op, g, d', loc)
  {
    SinceGrows(s.log, s'.abs, s.threads[t]);
  }

  // A walk begins at distance 0 of the current generation.
  lemma WalkBegins(c: Config, s: State, s': State, t: nat, op: Op, loc: Option<nat>)
    requires GoodConfig(c) && Shared(c, s') && t < |s'.threads| && s'.threads[t].start < |s'.log|
    requires loc.Some? <==> Inserting(op)
    requires loc.Some? ==> Reserved(c, s', t, op, Current(s'), loc.value)
    ensures Walking(c, s', t, op, Current(s'), 0, loc)
  {
    var g := Current(s');
    HomeOk(c, op.key, s'.metas[g].log);
    assert Skipped(c, s', op.key, g, 0);
    if op.key !in s'.at {
      assert op.key !in s'.log[|s'.log| - 1];
    }
  }

  // ---- the moment of an operation that changes nothing ----

  lemma AbsentJustifies(log: seq<map<Key, Value>>, th: Thread, op: Op)
    requires th.lin.None? && AbsentSince(log, th.start, op.key) && !Inserting(op)
    ensures Justified(log, th, op, AbsentResult(op))
  {
    var m :| th.start <= m < |log| && op.key !in log[m];
    assert Atomically(op, log[m]) == Outcome(AbsentResult(op), log[m]);
  }

  lemma HeldJustifies(log: seq<map<Key, Value>>, th: Thread, op: Op, v: Value, r: Result)
    requires th.lin.None? && HeldSince(log, th.start, op.key, v)
    requires match op
             case Get(_) => r == Returned(v)
             case CompareAndSet(_, NotFound, _) => r == ExpectationFailed
             case CompareAndSet(_, Any, _) => false
             case CompareAndSet(_, Exactly(e), _) => v != e && r == ExpectationFailed
             case Delete(_) => false
    ensures Justified(log, th, op, r)
  {
    var m :| th.start <= m < |log| && op.key in log[m] && log[m][op.key] == v;
    assert Atomically(op, log[m]) == Outcome(r, log[m]);
  }

  lemma NowHeld(c: Config, s: State, s': State, t: nat, x: nat)
    requires Shared(c, s') && t < |s'.threads| && s'.threads[t].start < |s'.log| && Live(s', x)
    ensures HeldSince(s'.log, s'.threads[t].start, s'.entries[x].key, s'.entries[x].value.value)
  {
    var k := s'.entries[x].key;
    assert s'.at[k] == x;
    assert s'.log[|s'.log| - 1] == s'.abs;
  }

  // ---- one step of thread t, case by case ----

  ghost predicate Takes(c: Config, s: State, t: nat, ch: Choice, s': State) {
    && GoodConfig(c) && Inv(c, s) && Shaped(s) && t < |s.threads| && InRange(s, s.threads[t].pc)
    && Enabled(c, s, t, ch) && s' == Step(c, s, t, ch)
  }

  ghost predicate Kept(c: Config, s: State, s': State, t: nat) {
    Shared(c, s') && t < |s.threads| == |s'.threads| && Evolves(s, s', t) && Local(c, s', t)
  }

  lemma Own(c: Config, s: State, t: nat, ch: Choice, s': State)
    requires Takes(c, s, t, ch, s')
    ensures Shared(c, s) && Shaped(s) && t < |s.threads| && Local(c, s, t)
  {
  }

  lemma StartKept(c: Config, s: State, t: nat, ch: Choice, s': State)
    requires Takes(c, s, t, ch, s') && s.threads[t].pc.Idle?
    ensures Kept(c, s, s', t)
  {
    hide Inv, Shared;
    Own(c, s, t, ch, s');
    HasLog(c, s);
    assert Quiet(s, s', t);
    QuietKeeps(c, s, s', t);
  }

  lemma HasLog(c: Config, s: State)
    requires Shared(c, s)
    ensures Shaped(s) && s.metas != [] && s.log != [] && s.log[|s.log| - 1] == s.abs && |s.mutex| == |s.threads|
  {
  }

  lemma FetchKept(c: Config, s: State, t: nat, ch: Choice, s': State)
    requires Takes(c, s, t, ch, s') && s.threads[t].pc.Fetch?
    ensures Kept(c, s, s', t)
  {
    hide Inv, Shared, Walking;
    Own(c, s, t, ch, s');
    HasLog(c, s);
    assert Quiet(s, s', t);
    QuietKeeps(c, s, s', t);
    if s.threads[t].pc.op.Get? { WalkBegins(c, s, s', t, s.threads[t].pc.op, None); }
  }

  // Steps that only take or drop a lock, or move on.
  predicate Locks(pc: Pc) {
    pc.TryLock? || pc.Block? || pc.Drop? || pc.Unlock?
  }

  predicate Waits(pc: Pc) {
    pc.HelpCheck? || pc.Follow? || pc.Return? || pc.GrowFetch?
  }

  lemma LocksQuiet(c: Config, s: State, t: nat, ch: Choice, s': State)
    requires Takes(c, s, t, ch, s') && (s.threads[t].pc.TryLock? || s.threads[t].pc.Block?)
    ensures Quiet(s, s', t)
  {
    hide Inv;
  }

  lemma UnlocksQuiet(c: Config, s: State, t: nat, ch: Choice, s': State)
    requires Takes(c, s, t, ch, s') && (s.threads[t].pc.Drop? || s.threads[t].pc.Unlock?) && LockInv(s, t)
    ensures Quiet(s, s', t)
  {
    hide Inv, Counted, Enabled;
  }

  lemma WaitsQuiet(c: Config, s: State, t: nat, ch: Choice, s': State)
    requires Takes(c, s, t, ch, s') && Waits(s.threads[t].pc)
    ensures Quiet(s, s', t)
  {
    hide Inv, Enabled;
  }

  // Where such a step leads.
  predicate Follows(s: State, pc: Pc, pc': Pc) {
    match pc
    case TryLock(op, g) => pc' == Check(op, g) || pc' == HelpCheck(op, g)
    case HelpCheck(op, g) => pc' == Follow(Again(op), g) || pc' == Block(op, g)
    case Block(op, g) => pc' == Check(op, g)
    case Drop(cont, g, _) => pc' == GrowFetch(cont) || pc' == Follow(cont, g)
    case Follow(cont, _) => pc' == Resume(cont)
    case Unlock(op, _, r) => pc' == GrowFetch(Done(op, r)) || pc' == Return(op, r)
    case Return(_, _) => pc' == Idle
    case GrowFetch(cont) => pc' == Elect(cont, Current(s))
    case _ => false
  }

  // Only thread t's pc and its own lock change.
  ghost predicate GoesOn(s: State, s': State, t: nat) {
    && t < |s.threads| == |s'.threads| && s'.threads[t] == s.threads[t].(pc := s'.threads[t].pc)
    && s'.metas == s.metas && s'.log == s.log + [s'.abs] && Follows(s, s.threads[t].pc, s'.threads[t].pc)
    && (s'.threads[t].pc.Check? ==> Holding(s', t))
  }

  lemma LocksGo(c: Config, s: State, t: nat, ch: Choice, s': State)
    requires Takes(c, s, t, ch, s') && Locks(s.threads[t].pc)
    ensures GoesOn(s, s', t)
  {
    hide Inv, Counted, Enabled;
  }

  lemma WaitsGo(c: Config, s: State, t: nat, ch: Choice, s': State)
    requires Takes(c, s, t, ch, s') && Waits(s.threads[t].pc)
    ensures GoesOn(s, s', t)
  {
    hide Inv, Enabled;
  }

  lemma GoesOnLock(s: State, s': State, t: nat)
    requires GoesOn(s, s', t) && LockInv(s, t) && s.metas != []
    ensures LockInv(s', t)
  {
  }

  lemma GoesOnLin(c: Config, s: State, s': State, t: nat)
    requires GoesOn(s, s', t) && LinInv(s, t)
    ensures LinInv(s', t) && ProbeInv(c, s', t)
  {
    SinceGrows(s.log, s'.abs, s.threads[t]);
  }

  lemma WaitKept(c: Config, s: State, t: nat, ch: Choice, s': State)
    requires t < |s.threads| && Takes(c, s, t, ch, s') && (Locks(s.threads[t].pc) || Waits(s.threads[t].pc))
    ensures Kept(c, s, s', t)
  {
    hide Takes, Shared, Evolves, Quiet, LockInv, LinInv, ProbeInv, Follows;
    Own(c, s, t, ch, s');
    HasLog(c, s);
    if Locks(s.threads[t].pc) {
      if s.threads[t].pc.TryLock? || s.threads[t].pc.Block? {
        LocksQuiet(c, s, t, ch, s');
      } else {
        UnlocksQuiet(c, s, t, ch, s');
      }
      LocksGo(c, s, t, ch, s');
    } else {
      WaitsQuiet(c, s, t, ch, s');
      WaitsGo(c, s, t, ch, s');
    }
    QuietKeeps(c, s, s', t);
    GoesOnLock(s, s', t);
    GoesOnLin(c, s, s', t);
  }

  lemma LeadIs(c: Config, s: State, t: nat, ch: Choice, s': State)
    requires Takes(c, s, t, ch, s') && s.threads[t].pc.Lead?
    ensures var th := s.threads[t].pc;
            s' == LeadStep(s, t, th.cont, th.g, th.k) && (th.k < |s.mutex| ==> s.mutex[th.k].None?)
  {
    hide Inv, LeadStep;
  }

  // One lock more.
  lemma LeadLocked(s: State, t: nat, s': State)
    requires t < |s.threads| && s.threads[t].pc.Lead?
    requires var pc := s.threads[t].pc; LeadsOn(s, t, pc.g, pc.k) && s' == LeadStep(s, t, pc.cont, pc.g, pc.k)
    ensures var pc := s.threads[t].pc;
            && |s'.threads| == |s.threads| && s'.log == s.log + [s'.abs]
            && if pc.k < |s.mutex|
               then s'.threads[t] == s.threads[t].(pc := Lead(pc.cont, pc.g, pc.k + 1))
                   && LeadsOn(s', t, pc.g, pc.k + 1)
               else s'.threads[t] == s.threads[t].(pc := Migrating(pc.cont, pc.g)) && LeadsOn(s', t, pc.g, |s'.mutex|)
  {
  }

  lemma LeadQuiet(s: State, t: nat, s': State)
    requires t < |s.threads| && s.threads[t].pc.Lead? && LockInv(s, t)
    requires var pc := s.threads[t].pc;
             && (pc.k < |s.mutex| ==> s.mutex[pc.k].None?)
             && s' == LeadStep(s, t, pc.cont, pc.g, pc.k)
    ensures Quiet(s, s', t)
  {
  }

  lemma LeadLocal(c: Config, s: State, t: nat, s': State)
    requires t < |s.threads| == |s'.threads| && s.threads[t].pc.Lead? && LinInv(s, t) && s'.log == s.log + [s'.abs]
    requires var pc := s.threads[t].pc;
             || (s'.threads[t] == s.threads[t].(pc := Lead(pc.cont, pc.g, pc.k + 1)) && LeadsOn(s', t, pc.g, pc.k + 1))
             || (s'.threads[t] == s.threads[t].(pc := Migrating(pc.cont, pc.g)) && LeadsOn(s', t, pc.g, |s'.mutex|))
    ensures Local(c, s', t)
  {
    hide LeadsOn;
    SinceGrows(s.log, s'.abs, s.threads[t]);
  }

  lemma LeadKept(c: Config, s: State, t: nat, ch: Choice, s': State)
    requires t < |s.threads| && Takes(c, s, t, ch, s') && s.threads[t].pc.Lead?
    ensures Kept(c, s, s', t)
  {
    hide Inv, Shared, Evolves, Takes, Quiet, LeadStep, LeadsOn, LinInv, ProbeInv;
    LeadIs(c, s, t, ch, s');
    Own(c, s, t, ch, s');
    LeadQuiet(s, t, s');
    QuietKeeps(c, s, s', t);
    LeadLocked(s, t, s');
    LeadLocal(c, s, t, s');
  }

  lemma ReleaseIs(c: Config, s: State, t: nat, ch: Choice, s': State)
    requires Takes(c, s, t, ch, s') && s.threads[t].pc.Release?
    ensures var th := s.threads[t].pc; s' == ReleaseStep(s, t, th.cont, th.k)
  {
    hide Inv, ReleaseStep;
  }

  // One lock less.
  lemma ReleaseLocked(s: State, t: nat, s': State)
    requires t < |s.threads| && s.threads[t].pc.Release? && LockInv(s, t)
    requires s' == ReleaseStep(s, t, s.threads[t].pc.cont, s.threads[t].pc.k)
    ensures |s'.threads| == |s.threads| && s'.log == s.log + [s'.abs]
    ensures var pc := s.threads[t].pc;
            if pc.k < |s.mutex|
            then
              && s'.threads[t] == s.threads[t].(pc := Release(pc.cont, pc.k + 1)) && |s'.mutex| == |s.mutex|
              && forall i :: pc.k + 1 <= i < |s'.mutex| ==> s'.mutex[i] == Some(t)
            else s'.threads[t] == s.threads[t].(pc := Resume(pc.cont))
  {
  }

  lemma ReleaseQuiet(s: State, t: nat, s': State)
    requires t < |s.threads| && s.threads[t].pc.Release? && LockInv(s, t)
    requires s' == ReleaseStep(s, t, s.threads[t].pc.cont, s.threads[t].pc.k)
    ensures Quiet(s, s', t)
  {
  }

  lemma ReleaseLocal(c: Config, s: State, t: nat, s': State)
    requires t < |s.threads| && s.threads[t].pc.Release? && LockInv(s, t) && LinInv(s, t)
    requires s' == ReleaseStep(s, t, s.threads[t].pc.cont, s.threads[t].pc.k)
    ensures |s'.threads| == |s.threads| && Local(c, s', t)
  {
    hide ReleaseStep;
    ReleaseLocked(s, t, s');
    SinceGrows(s.log, s'.abs, s.threads[t]);
  }

  lemma ReleaseKept(c: Config, s: State, t: nat, ch: Choice, s': State)
    requires t < |s.threads| && Takes(c, s, t, ch, s') && s.threads[t].pc.Release?
    ensures Kept(c, s, s', t)
  {
    hide Inv, Shared, Evolves, Takes, Quiet, ReleaseStep, LockInv, LinInv, ProbeInv;
    ReleaseIs(c, s, t, ch, s');
    Own(c, s, t, ch, s');
    ReleaseQuiet(s, t, s');
    QuietKeeps(c, s, s', t);
    ReleaseLocal(c, s, t, s');
  }

  lemma CheckKept(c: Config, s: State, t: nat, ch: Choice, s': State)
    requires Takes(c, s, t, ch, s') && s.threads[t].pc.Check?
    ensures Kept(c, s, s', t)
  {
    hide Inv, Shared, Walking;
    Own(c, s, t, ch, s');
    HasLog(c, s);
    assert Quiet(s, s', t);
    QuietKeeps(c, s, s', t);
    NoLeaderNewest(c, s, s.threads[t].pc.g);
    if s'.threads[t].pc.Probe? { WalkBegins(c, s, s', t, s.threads[t].pc.op, None); }
  }

  // Only the newest generation has no leader yet.
  lemma NoLeaderNewest(c: Config, s: State, g: nat)
    requires Shared(c, s) && g < |s.metas|
    ensures s.metas[g].leader.None? ==> g + 1 == |s.metas|
  {
  }

  lemma ElectKept(c: Config, s: State, t: nat, ch: Choice, s': State)
    requires t < |s.threads| && Takes(c, s, t, ch, s') && s.threads[t].pc.Elect?
    ensures Kept(c, s, s', t)
  {
    hide Inv, Shared, Walking, Evolves, Elected, Quiet, Takes;
    Own(c, s, t, ch, s');
    var th := s.threads[t];
    NoLeaderNewest(c, s, th.pc.g);
    ElectIs(c, s, t, ch, s');
    if s.metas[th.pc.g].leader.None? {
      ElectedKeeps(c, s, s', t, th.pc.g);
    } else {
      JumpQuiet(c, s, s', t, Follow(th.pc.cont, th.pc.g));
    }
    SinceGrows(s.log, s'.abs, th);
  }

  lemma ElectIs(c: Config, s: State, t: nat, ch: Choice, s': State)
    requires t < |s.threads| && Takes(c, s, t, ch, s') && s.threads[t].pc.Elect? && s.threads[t].pc.g < |s.metas|
    ensures var th := s.threads[t];
            && |s'.threads| == |s.threads| && s'.log == s.log + [s'.abs]
            && if s.metas[th.pc.g].leader.None?
               then Elected(s, s', t, th.pc.g) && s'.threads[t] == th.(pc := Lead(th.pc.cont, th.pc.g, 0))
                    && |s'.metas| == |s.metas| && s'.metas[th.pc.g].leader == Some(t)
               else Jumps(s, s', t, Follow(th.pc.cont, th.pc.g))
  {
    hide Inv;
  }

  lemma ReserveKept(c: Config, s: State, t: nat, ch: Choice, s': State)
    requires Takes(c, s, t, ch, s') && s.threads[t].pc.Reserve?
    ensures Kept(c, s, s', t)
  {
    hide Inv, Shared, Walking;
    Own(c, s, t, ch, s');
    HasLog(c, s);
    var op := s.threads[t].pc.op;
    if ch.grow {
      assert Quiet(s, s', t);
      QuietKeeps(c, s, s', t);
    } else {
      var e := Entry(op.key, c.hash(op.key), Some(op.desired));
      assert ReservedFor(c, s, s', t, ch.loc, e);
      ReservedKeeps(c, s, s', t, ch.loc, e);
      WalkBegins(c, s, s', t, op, Some(ch.loc));
    }
  }

  lemma MigratingKept(c: Config, s: State, t: nat, ch: Choice, s': State)
    requires t < |s.threads| && Takes(c, s, t, ch, s') && s.threads[t].pc.Migrating?
    ensures Kept(c, s, s', t)
  {
    hide Inv, Shared, Walking, Grows, Takes, Evolves;
    Own(c, s, t, ch, s');
    MigratingIs(c, s, t, ch, s');
    GrowsKeeps(c, s, s', t, ch.index);
    SinceGrows(s.log, s'.abs, s.threads[t]);
  }

  lemma MigratingIs(c: Config, s: State, t: nat, ch: Choice, s': State)
    requires t < |s.threads| && Takes(c, s, t, ch, s') && s.threads[t].pc.Migrating? && Local(c, s, t)
    ensures Grows(c, s, s', t, ch.index)
    ensures |s'.threads| == |s.threads| && s'.log == s.log + [s'.abs] && s'.mutex == s.mutex
    ensures s'.threads[t] == s.threads[t].(pc := Release(s.threads[t].pc.cont, 0))
  {
    hide Inv, Migrated, Shaped;
  }

  // ---- the probe ----

  lemma ProbeIs(c: Config, s: State, t: nat, ch: Choice, s': State)
    requires Takes(c, s, t, ch, s') && s.threads[t].pc.Probe?
    ensures var pc := s.threads[t].pc; pc.g < |s.metas| && s' == ProbeStep(c, s, t, pc.op, pc.g, pc.distance, pc.loc)
  {
    hide Inv, ProbeStep;
  }

  // Only the actor's pc changes.
  ghost predicate Jumps(s: State, s': State, t: nat, pc: Pc) {
    && t < |s.threads| && s' == Goto(s, t, pc)
  }

  lemma JumpQuiet(c: Config, s: State, s': State, t: nat, pc: Pc)
    requires Jumps(s, s', t, pc) && !pc.Bury? && Shared(c, s) && Local(c, s, t)
    ensures Quiet(s, s', t) && Shared(c, s') && Evolves(s, s', t)
    ensures s'.mutex == s.mutex && s'.threads[t] == s.threads[t].(pc := pc) && s.threads[t].start < |s.log|
  {
    hide Shared, Evolves, LockInv, ProbeInv;
    QuietKeeps(c, s, s', t);
  }

  lemma ProbeKept(c: Config, s: State, t: nat, ch: Choice, s': State)
    requires Takes(c, s, t, ch, s') && s.threads[t].pc.Probe?
    ensures Kept(c, s, s', t)
  {
    hide Inv, Shared, Evolves, Step, Enabled, Walking, AtNode, Quiet, Skipped;
    ProbeIs(c, s, t, ch, s');
    Own(c, s, t, ch, s');
    var pc := s.threads[t].pc;
    WalkingSkips(c, s, t, pc.op, pc.g, pc.distance, pc.loc);
    NotExhausted(c, s, pc.op.key, pc.g, pc.distance);
    var slot := s.metas[pc.g].index[SlotNo(c, s, pc.op.key, pc.g, pc.distance)];
    var pc' := ProbeNext(c, s.metas[pc.g].log, pc.op, pc.g, pc.distance, pc.loc, slot);
    ProbeNextKinds(c, s.metas[pc.g].log, pc.op, pc.g, pc.distance, pc.loc, slot);
    JumpQuiet(c, s, s', t, pc');
    match slot {
      case Empty => ProbeEmpty(c, s, t, s');
      case Tombstone => ProbeSkips(c, s, t, s');
      case Node(x, tag, _) =>
        if tag == TagFor(c, pc.op.key, s.metas[pc.g].log) {
          ProbeLoads(c, s, t, s', x);
        } else {
          ProbeSkips(c, s, t, s');
        }
    }
  }

  lemma WalkingSkips(c: Config, s: State, u: nat, op: Op, g: nat, d: nat, loc: Option<nat>)
    requires u < |s.threads| && Walking(c, s, u, op, g, d, loc)
    ensures Shaped(s) && g < |s.metas| && Skipped(c, s, op.key, g, d) && Tracked(s, u, op.key, g)
    ensures loc.Some? <==> Inserting(op)
  {
  }

  lemma ProbeNextKinds(c: Config, log: nat, op: Op, g: nat, d: nat, loc: Option<nat>, slot: Slot)
    requires LogSize(log)
    ensures !ProbeNext(c, log, op, g, d, loc, slot).Bury?
  {
  }

  lemma ProbeEmpty(c: Config, s: State, t: nat, s': State)
    requires Shared(c, s) && t < |s.threads| && s.threads[t].pc.Probe? && Local(c, s, t) && Shaped(s)
    requires Shared(c, s') && Quiet(s, s', t) && s'.mutex == s.mutex
    requires s.threads[t].pc.g < |s.metas| && s.threads[t].pc.distance < |s.metas[s.threads[t].pc.g].index|
    requires var pc := s.threads[t].pc;
             && s.metas[pc.g].index[SlotNo(c, s, pc.op.key, pc.g, pc.distance)].Empty?
             && s'.threads[t].pc == ProbeNext(c, s.metas[pc.g].log, pc.op, pc.g, pc.distance, pc.loc, Empty)
             && s'.threads[t] == s.threads[t].(pc := s'.threads[t].pc)
    ensures Local(c, s', t)
  {
    hide Shared, Walking, AtNode, Skipped;
    var pc := s.threads[t].pc;
    WalkingSkips(c, s, t, pc.op, pc.g, pc.distance, pc.loc);
    EmptyMeansAbsent(c, s, pc.op.key, pc.g, pc.distance);
    WalkOn(c, s, s', t, pc.op, pc.g, pc.distance, pc.distance, pc.loc);
    SinceGrows(s.log, s'.abs, s.threads[t]);
    if !Inserting(pc.op) {
      AbsentJustifies(s'.log, s'.threads[t], pc.op);
    }
  }

  lemma ProbeSkips(c: Config, s: State, t: nat, s': State)
    requires Shared(c, s) && t < |s.threads| && s.threads[t].pc.Probe? && Local(c, s, t) && Shaped(s)
    requires Shared(c, s') && Quiet(s, s', t) && s'.mutex == s.mutex
    requires s.threads[t].pc.g < |s.metas| && s.threads[t].pc.distance < |s.metas[s.threads[t].pc.g].index|
    requires var pc := s.threads[t].pc;
             && var slot := s.metas[pc.g].index[SlotNo(c, s, pc.op.key, pc.g, pc.distance)];
             && !slot.Empty? && (slot.Node? ==> slot.tag != TagFor(c, pc.op.key, s.metas[pc.g].log))
             && s'.threads[t] == s.threads[t].(pc := Probe(pc.op, pc.g, pc.distance + 1, pc.loc))
    ensures Local(c, s', t)
  {
    hide Shared, Walking, AtNode, Skipped;
    var pc := s.threads[t].pc;
    WalkingSkips(c, s, t, pc.op, pc.g, pc.distance, pc.loc);
    WrongTag(c, s, pc.op.key, pc.g, SlotNo(c, s, pc.op.key, pc.g, pc.distance));
    SkipOne(c, s, pc.op.key, pc.g, pc.distance);
    WalkOn(c, s, s', t, pc.op, pc.g, pc.distance, pc.distance + 1, pc.loc);
    SinceGrows(s.log, s'.abs, s.threads[t]);
  }

  // A slot that holds the key carries the key's tag.
  lemma WrongTag(c: Config, s: State, k: Key, g: nat, p: nat)
    requires Shared(c, s) && Shaped(s) && g < |s.metas| && p < |s.metas[g].index|
    ensures Matches(s.metas[g].index, s.entries, k, p) ==> s.metas[g].index[p].tag == TagFor(c, k, s.metas[g].log)
  {
    hide WellFormed, FilledOk, MapOk, BuryDistinct;
    var idx, log, f := s.metas[g].index, s.metas[g].log, Rehashed(s.entries, c.rehash);
    assert IndexOk(c, s, g);
    if Matches(idx, s.entries, k, p) {
      assert idx[p].index in Locations(idx);
      FitsAt(idx, log, f, p);
      assert f(idx[p].index) == c.rehash(c.hash(k));
    }
  }

  lemma ProbeLoads(c: Config, s: State, t: nat, s': State, x: nat)
    requires Shared(c, s) && t < |s.threads| && s.threads[t].pc.Probe? && Local(c, s, t) && Shaped(s)
    requires Shared(c, s') && Quiet(s, s', t) && s'.mutex == s.mutex
    requires s.threads[t].pc.g < |s.metas| && s.threads[t].pc.distance < |s.metas[s.threads[t].pc.g].index|
    requires var pc := s.threads[t].pc;
             && var slot := s.metas[pc.g].index[SlotNo(c, s, pc.op.key, pc.g, pc.distance)];
             && slot.Node? && slot.index == x
             && s'.threads[t] == s.threads[t].(pc := Load(pc.op, pc.g, pc.distance, pc.loc, x))
    ensures Local(c, s', t)
  {
    hide Shared, Walking, Skipped;
    var pc := s.threads[t].pc;
    WalkingSkips(c, s, t, pc.op, pc.g, pc.distance, pc.loc);
    WalkOn(c, s, s', t, pc.op, pc.g, pc.distance, pc.distance, pc.loc);
    NodeKnown(c, s, pc.g, SlotNo(c, s, pc.op.key, pc.g, pc.distance));
    SinceGrows(s.log, s'.abs, s.threads[t]);
  }

  lemma NodeKnown(c: Config, s: State, g: nat, p: nat)
    requires Shared(c, s) && Shaped(s) && g < |s.metas| && p < |s.metas[g].index| && s.metas[g].index[p].Node?
    ensures var x := s.metas[g].index[p].index; x in s.published && x in s.entries
  {
    assert IndexOk(c, s, g);
    assert s.metas[g].index[p].index in Locations(s.metas[g].index);
  }

  // ---- the probed entry ----

  lemma AtNodeParts(c: Config, s: State, u: nat, op: Op, g: nat, d: nat, loc: Option<nat>, x: nat)
    requires u < |s.threads| && AtNode(c, s, u, op, g, d, loc, x)
    ensures Shaped(s) && g < |s.metas| && Walking(c, s, u, op, g, d, loc) && d < |s.metas[g].index|
    ensures Skipped(c, s, op.key, g, d) && OnSlot(s, g, SlotNo(c, s, op.key, g, d), x)
    ensures x in s.published && x in s.entries
  {
  }

  // The walk goes on past a node whose entry is not a live entry of the key.
  lemma WalkPast(c: Config, s: State, s': State, t: nat, op: Op, g: nat, d: nat, loc: Option<nat>, x: nat)
    requires Quiet(s, s', t) && s'.threads[t].start == s.threads[t].start < |s.log|
    requires t < |s.threads| && AtNode(c, s, t, op, g, d, loc, x)
    requires !Holds(s.entries, x, op.key)
    ensures Walking(c, s', t, op, g, d + 1, loc)
  {
    hide Walking, Skipped;
    AtNodeParts(c, s, t, op, g, d, loc, x);
    SkipOne(c, s, op.key, g, d);
    WalkOn(c, s, s', t, op, g, d, d + 1, loc);
  }

  lemma StayAt(c: Config, s: State, s': State, t: nat, op: Op, g: nat, d: nat, loc: Option<nat>, x: nat)
    requires Quiet(s, s', t) && s'.threads[t].start == s.threads[t].start < |s.log|
    requires t < |s.threads| && AtNode(c, s, t, op, g, d, loc, x)
    ensures AtNode(c, s', t, op, g, d, loc, x)
    ensures LiveOrGone(s, t, x) ==> LiveOrGone(s', t, x)
  {
    hide Walking, Skipped;
    AtNodeParts(c, s, t, op, g, d, loc, x);
    WalkOn(c, s, s', t, op, g, d, d, loc);
    SinceGrows(s.log, s'.abs, s.threads[t]);
  }

  lemma LoadIs(c: Config, s: State, t: nat, ch: Choice, s': State)
    requires Takes(c, s, t, ch, s') && s.threads[t].pc.Load?
    ensures var pc := s.threads[t].pc; s' == LoadStep(s, t, pc.op, pc.g, pc.distance, pc.loc, pc.x)
  {
    hide Inv, LoadStep;
  }

  lemma LoadKept(c: Config, s: State, t: nat, ch: Choice, s': State)
    requires Takes(c, s, t, ch, s') && s.threads[t].pc.Load?
    ensures Kept(c, s, s', t)
  {
    hide Inv, Shared, Evolves, Step, Enabled, AtNode, Walking, Quiet, HeldSince, LiveOrGone;
    LoadIs(c, s, t, ch, s');
    Own(c, s, t, ch, s');
    var pc := s.threads[t].pc;
    AtNodeParts(c, s, t, pc.op, pc.g, pc.distance, pc.loc, pc.x);
    JumpQuiet(c, s, s', t, s'.threads[t].pc);
    LoadLocal(c, s, t, s');
  }

  lemma LoadLocal(c: Config, s: State, t: nat, s': State)
    requires t < |s.threads| && s.threads[t].pc.Load? && Local(c, s, t)
    requires var pc := s.threads[t].pc;
             && pc.x in s.published && pc.x in s.entries
             && s' == LoadStep(s, t, pc.op, pc.g, pc.distance, pc.loc, pc.x)
    requires Quiet(s, s', t) && Shared(c, s')
    ensures Local(c, s', t)
  {
    hide Shared, AtNode, Walking, Quiet, HeldSince, LiveOrGone;
    var pc := s.threads[t].pc;
    if s.entries[pc.x].value.Some? {
      StayAt(c, s, s', t, pc.op, pc.g, pc.distance, pc.loc, pc.x);
      LoadedLive(c, s, s', t, pc.x);
    } else {
      WalkPast(c, s, s', t, pc.op, pc.g, pc.distance, pc.loc, pc.x);
    }
  }

  lemma LoadedLive(c: Config, s: State, s': State, t: nat, x: nat)
    requires Shared(c, s') && Quiet(s, s', t) && s'.threads[t].start == s.threads[t].start < |s.log|
    requires x in s.published && x in s.entries && s.entries[x].value.Some?
    ensures LiveOrGone(s', t, x) && HeldSince(s'.log, s'.threads[t].start, s'.entries[x].key, s'.entries[x].value.value)
  {
    hide Shared;
    NowHeld(c, s, s', t, x);
  }

  lemma CompareIs(c: Config, s: State, t: nat, ch: Choice, s': State)
    requires Takes(c, s, t, ch, s') && s.threads[t].pc.Compare?
    ensures var pc := s.threads[t].pc; s' == CompareStep(c, s, t, pc.op, pc.g, pc.distance, pc.loc, pc.x, pc.v)
  {
    hide Inv, CompareStep;
  }

  lemma CompareKept(c: Config, s: State, t: nat, ch: Choice, s': State)
    requires Takes(c, s, t, ch, s') && s.threads[t].pc.Compare?
    ensures Kept(c, s, s', t)
  {
    hide Inv, Shared, Evolves, Step, Enabled, AtNode, Walking, Quiet, HeldSince, LiveOrGone, Justified, WithValue;
    CompareIs(c, s, t, ch, s');
    Own(c, s, t, ch, s');
    var pc := s.threads[t].pc;
    WithValueKinds(pc.op, pc.g, pc.distance, pc.loc, pc.x, pc.v);
    JumpQuiet(c, s, s', t, s'.threads[t].pc);
    CompareLocal(c, s, t, s');
  }

  lemma CompareLocal(c: Config, s: State, t: nat, s': State)
    requires Shared(c, s) && t < |s.threads| && s.threads[t].pc.Compare? && Local(c, s, t)
    requires var pc := s.threads[t].pc; s' == CompareStep(c, s, t, pc.op, pc.g, pc.distance, pc.loc, pc.x, pc.v)
    requires Quiet(s, s', t)
    ensures Local(c, s', t)
  {
    hide Shared, AtNode, Walking, Quiet, HeldSince, LiveOrGone, Justified, WithValue;
    var th, pc := s.threads[t], s.threads[t].pc;
    AtNodeParts(c, s, t, pc.op, pc.g, pc.distance, pc.loc, pc.x);
    KeyHash(c, s, pc.x);
    if s.entries[pc.x].key == pc.op.key {
      StayAt(c, s, s', t, pc.op, pc.g, pc.distance, pc.loc, pc.x);
      SinceGrows(s.log, s'.abs, th);
      Judged(c, s, s', t, pc.op, pc.g, pc.distance, pc.loc, pc.x, pc.v);
    } else {
      WalkPast(c, s, s', t, pc.op, pc.g, pc.distance, pc.loc, pc.x);
    }
  }

  lemma KeyHash(c: Config, s: State, x: nat)
    requires Shared(c, s) && x in s.published
    ensures x in s.entries && s.entries[x].hash == c.hash(s.entries[x].key)
  {
  }

  lemma WithValueKinds(op: Op, g: nat, d: nat, loc: Option<nat>, x: nat, v: Value)
    ensures !WithValue(op, g, d, loc, x, v).Bury?
  {
  }

  // With the key found and its value known, either the operation is answered or it goes on to its CAS.
  lemma Judged(c: Config, s: State, s': State, t: nat, op: Op, g: nat, d: nat, loc: Option<nat>, x: nat, v: Value)
    requires t < |s.threads| == |s'.threads| && LockInv(s, t) && LinInv(s, t) && s.threads[t].lin.None?
    requires match s.threads[t].pc
             case Compare(o, h, _, _, _, _) => o == op && h == g
             case Reload(o, h, _, _, _) => o == op && h == g && (op.CompareAndSet? ==> !op.expected.NotFound?)
             case _ => false
    requires Quiet(s, s', t) && s'.mutex == s.mutex
    requires s'.threads[t] == s.threads[t].(pc := WithValue(op, g, d, loc, x, v))
    requires AtNode(c, s', t, op, g, d, loc, x) && x in s'.entries && LiveOrGone(s', t, x)
    requires s'.entries[x].key == op.key
    requires HeldSince(s'.log, s'.threads[t].start, op.key, v)
    ensures Local(c, s', t)
  {
    hide AtNode, Justified, LiveOrGone, HeldSince;
    var pc' := s'.threads[t].pc;
    if pc'.Unlock? || pc'.Return? {
      HeldJustifies(s'.log, s'.threads[t], op, v, pc'.result);
    }
  }

  lemma ReloadIs(c: Config, s: State, t: nat, ch: Choice, s': State)
    requires Takes(c, s, t, ch, s') && s.threads[t].pc.Reload?
    ensures var pc := s.threads[t].pc; s' == ReloadStep(s, t, pc.op, pc.g, pc.distance, pc.loc, pc.x)
  {
    hide Inv, ReloadStep;
  }

  lemma ReloadKept(c: Config, s: State, t: nat, ch: Choice, s': State)
    requires Takes(c, s, t, ch, s') && s.threads[t].pc.Reload?
    ensures Kept(c, s, s', t)
  {
    hide Inv, Shared, Evolves, Step, Enabled, AtNode, Walking, Quiet, LiveOrGone, WithValue;
    ReloadIs(c, s, t, ch, s');
    Own(c, s, t, ch, s');
    var pc := s.threads[t].pc;
    AtNodeParts(c, s, t, pc.op, pc.g, pc.distance, pc.loc, pc.x);
    if s.entries[pc.x].value.Some? {
      WithValueKinds(pc.op, pc.g, pc.distance, pc.loc, pc.x, s.entries[pc.x].value.value);
      JumpQuiet(c, s, s', t, s'.threads[t].pc);
      ReloadLive(c, s, t, s');
    } else {
      JumpQuiet(c, s, s', t, s'.threads[t].pc);
      ReloadDead(c, s, t, s');
    }
  }

  lemma ReloadLive(c: Config, s: State, t: nat, s': State)
    requires t < |s.threads| && s.threads[t].pc.Reload? && Local(c, s, t)
    requires var pc := s.threads[t].pc;
             && pc.x in s.published && pc.x in s.entries && s.entries[pc.x].value.Some?
             && s' == Goto(s, t, WithValue(pc.op, pc.g, pc.distance, pc.loc, pc.x, s.entries[pc.x].value.value))
    requires Quiet(s, s', t) && Shared(c, s')
    ensures Local(c, s', t)
  {
    hide Shared, AtNode, Walking, Quiet, HeldSince, LiveOrGone, Justified, WithValue;
    var pc := s.threads[t].pc;
    StayAt(c, s, s', t, pc.op, pc.g, pc.distance, pc.loc, pc.x);
    LoadedLive(c, s, s', t, pc.x);
    Judged(c, s, s', t, pc.op, pc.g, pc.distance, pc.loc, pc.x, s.entries[pc.x].value.value);
  }

  lemma ReloadDead(c: Config, s: State, t: nat, s': State)
    requires t < |s.threads| && s.threads[t].pc.Reload? && Local(c, s, t)
    requires var pc := s.threads[t].pc;
             && pc.x in s.published && pc.x in s.entries && s.entries[pc.x].value.None?
             && s' == ReloadStep(s, t, pc.op, pc.g, pc.distance, pc.loc, pc.x)
    requires Quiet(s, s', t)
    ensures Local(c, s', t)
  {
    hide AtNode, Walking, Quiet, LiveOrGone, Justified;
    var pc := s.threads[t].pc;
    if pc.op.CompareAndSet? && pc.op.expected.Any? {
      WalkPast(c, s, s', t, pc.op, pc.g, pc.distance, pc.loc, pc.x);
    } else {
      GoneJustifies(c, s, s', t, pc.x, pc.op);
    }
  }

  lemma GoneJustifies(c: Config, s: State, s': State, t: nat, x: nat, op: Op)
    requires Quiet(s, s', t) && t < |s.threads| && x in s.entries && LiveOrGone(s, t, x) && !Live(s, x)
    requires s.entries[x].key == op.key && s'.threads[t].start == s.threads[t].start && s'.threads[t].lin.None?
    requires !Inserting(op)
    ensures Justified(s'.log, s'.threads[t], op, AbsentResult(op))
  {
    SinceGrows(s.log, s'.abs, s.threads[t]);
    AbsentJustifies(s'.log, s'.threads[t], op);
  }

  lemma BuryIs(c: Config, s: State, t: nat, ch: Choice, s': State)
    requires Takes(c, s, t, ch, s') && s.threads[t].pc.Bury?
    ensures var pc := s.threads[t].pc; pc.g < |s.metas| && s' == BuryStep(c, s, t, pc.op, pc.g, pc.distance, pc.x)
  {
    hide Inv, BuryStep;
  }

  // The tombstone CAS meets the node it read: nobody else touches it.
  lemma BuryStepKept(c: Config, s: State, t: nat, ch: Choice, s': State)
    requires Takes(c, s, t, ch, s') && s.threads[t].pc.Bury?
    ensures Kept(c, s, s', t)
  {
    hide Inv, Shared, Evolves, Step, Enabled;
    BuryIs(c, s, t, ch, s');
    Own(c, s, t, ch, s');
    HasLog(c, s);
    var pc := s.threads[t].pc;
    var p := SlotNo(c, s, pc.op.key, pc.g, pc.distance);
    assert Buried(s, s', t, pc.g, p, pc.x);
    BuriedKeeps(c, s, s', t, pc.g, p, pc.x);
    SinceGrows(s.log, s'.abs, s.threads[t]);
  }

  // ---- the steps that change the map ----

  lemma SwapIs(c: Config, s: State, t: nat, ch: Choice, s': State)
    requires Takes(c, s, t, ch, s') && s.threads[t].pc.Swap?
    ensures var pc := s.threads[t].pc; s' == SwapStep(s, t, pc.op, pc.g, pc.distance, pc.loc, pc.x, pc.v)
  {
    hide Inv, SwapStep;
  }

  lemma SwapKept(c: Config, s: State, t: nat, ch: Choice, s': State)
    requires Takes(c, s, t, ch, s') && s.threads[t].pc.Swap?
    ensures Kept(c, s, s', t)
  {
    hide Inv, Shared, Evolves, Step, Enabled, AtNode, Walking, Quiet, LiveOrGone, LinInv, LockInv, SwapStep;
    SwapIs(c, s, t, ch, s');
    Own(c, s, t, ch, s');
    var pc := s.threads[t].pc;
    AtNodeParts(c, s, t, pc.op, pc.g, pc.distance, pc.loc, pc.x);
    if s.entries[pc.x].value != Some(pc.v) {
      SwapFails(c, s, t, s');
    } else if pc.op.CompareAndSet? {
      SwapUpdates(c, s, t, s');
    } else {
      SwapDeletes(c, s, t, s');
    }
  }

  lemma SwapFails(c: Config, s: State, t: nat, s': State)
    requires Shared(c, s) && t < |s.threads| && s.threads[t].pc.Swap? && Local(c, s, t)
    requires var pc := s.threads[t].pc;
             && pc.x in s.entries && s.entries[pc.x].value != Some(pc.v)
             && s' == SwapStep(s, t, pc.op, pc.g, pc.distance, pc.loc, pc.x, pc.v)
    ensures Kept(c, s, s', t)
  {
    hide Shared, Evolves, AtNode, Walking, Quiet, LiveOrGone;
    var pc := s.threads[t].pc;
    JumpQuiet(c, s, s', t, s'.threads[t].pc);
    StayAt(c, s, s', t, pc.op, pc.g, pc.distance, pc.loc, pc.x);
  }

  lemma SwapUpdates(c: Config, s: State, t: nat, s': State)
    requires Shared(c, s) && t < |s.threads| && s.threads[t].pc.Swap? && Local(c, s, t)
    requires var pc := s.threads[t].pc;
             && pc.op.CompareAndSet? && pc.x in s.published && pc.x in s.entries && s.entries[pc.x].value == Some(pc.v)
             && s' == SwapStep(s, t, pc.op, pc.g, pc.distance, pc.loc, pc.x, pc.v)
    ensures Kept(c, s, s', t)
  {
    hide Shared, Evolves, AtNode, Walking, LiveOrGone;
    var pc := s.threads[t].pc;
    LiveInMap(c, s, pc.x);
    assert Updated(s, s', t, pc.x, pc.op.key, pc.op.desired);
    UpdatedKeeps(c, s, s', t, pc.x, pc.op.key, pc.op.desired);
  }

  lemma LiveInMap(c: Config, s: State, x: nat)
    requires Shared(c, s) && Live(s, x)
    ensures var k := s.entries[x].key; k in s.at && s.at[k] == x && k in s.abs && Some(s.abs[k]) == s.entries[x].value
    ensures s.log != [] && s.log[|s.log| - 1] == s.abs
  {
  }

  lemma SwapDeletes(c: Config, s: State, t: nat, s': State)
    requires Inv(c, s) && Shared(c, s) && t < |s.threads| && s.threads[t].pc.Swap? && Local(c, s, t)
    requires var pc := s.threads[t].pc;
             && pc.op.Delete? && pc.x in s.published && pc.x in s.entries && s.entries[pc.x].value == Some(pc.v)
             && s' == SwapStep(s, t, pc.op, pc.g, pc.distance, pc.loc, pc.x, pc.v)
    ensures Kept(c, s, s', t)
  {
    hide Inv, Shared, Evolves, Walking, LiveOrGone;
    var pc := s.threads[t].pc;
    LiveInMap(c, s, pc.x);
    assert Killed(s, s', t, pc.x, pc.op.key);
    KilledKeeps(c, s, s', t, pc.x, pc.op.key);
    AtNodeParts(c, s, t, pc.op, pc.g, pc.distance, pc.loc, pc.x);
  }

  lemma PublishIs(c: Config, s: State, t: nat, ch: Choice, s': State)
    requires Takes(c, s, t, ch, s') && s.threads[t].pc.Publish?
    ensures var pc := s.threads[t].pc;
            pc.g < |s.metas| && pc.op.CompareAndSet? && s' == PublishStep(c, s, t, pc.op, pc.g, pc.distance, pc.entry)
  {
    hide Inv, PublishStep;
  }

  lemma PublishKept(c: Config, s: State, t: nat, ch: Choice, s': State)
    requires Takes(c, s, t, ch, s') && s.threads[t].pc.Publish?
    ensures Kept(c, s, s', t)
  {
    hide Inv, Shared, Evolves, Step, Enabled, Walking, Quiet, LinInv, LockInv, PublishStep;
    PublishIs(c, s, t, ch, s');
    Own(c, s, t, ch, s');
    var pc := s.threads[t].pc;
    if s.metas[pc.g].index[SlotNo(c, s, pc.op.key, pc.g, pc.distance)].Empty? {
      PublishInserts(c, s, t, s');
    } else {
      PublishFails(c, s, t, s');
    }
  }

  lemma PublishFails(c: Config, s: State, t: nat, s': State)
    requires Shared(c, s) && Shaped(s) && t < |s.threads| && s.threads[t].pc.Publish? && Local(c, s, t)
    requires var pc := s.threads[t].pc;
             && pc.g < |s.metas| && pc.op.CompareAndSet?
             && !s.metas[pc.g].index[SlotNo(c, s, pc.op.key, pc.g, pc.distance)].Empty?
             && s' == PublishStep(c, s, t, pc.op, pc.g, pc.distance, pc.entry)
    ensures Kept(c, s, s', t)
  {
    hide Shared, Evolves, Walking, Quiet, Skipped;
    var pc := s.threads[t].pc;
    JumpQuiet(c, s, s', t, s'.threads[t].pc);
    WalkingSkips(c, s, t, pc.op, pc.g, pc.distance, Some(pc.entry));
    WalkOn(c, s, s', t, pc.op, pc.g, pc.distance, pc.distance, Some(pc.entry));
  }

  lemma PublishInserts(c: Config, s: State, t: nat, s': State)
    requires Shared(c, s) && Shaped(s) && t < |s.threads| && s.threads[t].pc.Publish? && Local(c, s, t)
    requires var pc := s.threads[t].pc;
             && pc.g < |s.metas| && pc.op.CompareAndSet?
             && s.metas[pc.g].index[SlotNo(c, s, pc.op.key, pc.g, pc.distance)].Empty?
             && s' == PublishStep(c, s, t, pc.op, pc.g, pc.distance, pc.entry)
    ensures Kept(c, s, s', t)
  {
    hide Shared, Evolves, Skipped, Tracked;
    var pc := s.threads[t].pc;
    var op := pc.op;
    WalkingSkips(c, s, t, op, pc.g, pc.distance, Some(pc.entry));
    EmptyMeansAbsent(c, s, op.key, pc.g, pc.distance);
    NotInMap(c, s, op.key, pc.g);
    assert Inserts(c, s, s', t, pc.g, pc.distance, pc.entry, op.key, op.desired);
    InsertsKeeps(c, s, s', t, pc.g, pc.distance, pc.entry, op.key, op.desired);
  }

  lemma NotInMap(c: Config, s: State, k: Key, g: nat)
    requires Shared(c, s) && g < |s.metas|
    ensures k in s.at && g + 1 == |s.metas| ==> s.at[k] in Locations(s.metas[g].index)
    ensures s.at.Keys == s.abs.Keys && s.log != [] && s.log[|s.log| - 1] == s.abs
  {
  }

  // ---- every step ----

  lemma OwnKept(c: Config, s: State, t: nat, ch: Choice, s': State)
    requires t < |s.threads| && Takes(c, s, t, ch, s')
    ensures Kept(c, s, s', t)
  {
    hide Takes, Kept;
    match s.threads[t].pc {
      case Idle => StartKept(c, s, t, ch, s');
      case Fetch(_) => FetchKept(c, s, t, ch, s');
      case TryLock(_, _) => WaitKept(c, s, t, ch, s');
      case HelpCheck(_, _) => WaitKept(c, s, t, ch, s');
      case Block(_, _) => WaitKept(c, s, t, ch, s');
      case Check(_, _) => CheckKept(c, s, t, ch, s');
      case Drop(_, _, _) => WaitKept(c, s, t, ch, s');
      case Reserve(_, _) => ReserveKept(c, s, t, ch, s');
      case Probe(_, _, _, _) => ProbeKept(c, s, t, ch, s');
      case Load(_, _, _, _, _) => LoadKept(c, s, t, ch, s');
      case Compare(_, _, _, _, _, _) => CompareKept(c, s, t, ch, s');
      case Swap(_, _, _, _, _, _) => SwapKept(c, s, t, ch, s');
      case Reload(_, _, _, _, _) => ReloadKept(c, s, t, ch, s');
      case Publish(_, _, _, _) => PublishKept(c, s, t, ch, s');
      case Bury(_, _, _, _) => BuryStepKept(c, s, t, ch, s');
      case Unlock(_, _, _) => WaitKept(c, s, t, ch, s');
      case Return(_, _) => WaitKept(c, s, t, ch, s');
      case GrowFetch(_) => WaitKept(c, s, t, ch, s');
      case Elect(_, _) => ElectKept(c, s, t, ch, s');
      case Follow(_, _) => WaitKept(c, s, t, ch, s');
      case Lead(_, _, _) => LeadKept(c, s, t, ch, s');
      case Migrating(_, _) => MigratingKept(c, s, t, ch, s');
      case Release(_, _) => ReleaseKept(c, s, t, ch, s');
    }
  }

  lemma StepInv(c: Config, s: State, t: nat, ch: Choice, s': State)
    requires Takes(c, s, t, ch, s')
    ensures Inv(c, s') && Evolves(s, s', t)
  {
    hide Shared, Local, Evolves, Step;
    OwnKept(c, s, t, ch, s');
    forall u | 0 <= u < |s'.threads|
      ensures Local(c, s', u)
    {
      if u != t { OthersStable(c, s, s', t, u); }
    }
  }

  // Each slot of an initial index was filled by the entry of its node.
  lemma InitIndex(c: Config, s: State)
    requires Init(c, s)
    ensures FilledOk(s.metas[0], s.published)
  {
    var m := s.metas[0];
    forall p | 0 <= p < |m.index| && m.index[p].Node?
      ensures m.index[p].index in s.published
    {
      assert m.index[p].index in Locations(m.index);
    }
    forall p, q | p in m.filled && q in m.filled && p != q
      ensures m.filled[p] != m.filled[q]
    {
      assert !Clash(m.index, p, q) && !Clash(m.index, q, p);
    }
  }

  lemma InitMap(c: Config, s: State)
    requires Init(c, s)
    ensures EntriesOk(c, s) && MapOk(s)
  {
    hide WellFormed;
  }

  lemma InitInv(c: Config, s: State)
    requires Init(c, s)
    ensures Inv(c, s)
  {
    hide WellFormed, FilledOk, Stores, MapOk, EntriesOk;
    InitIndex(c, s);
    InitMap(c, s);
    assert IndexOk(c, s, 0);
  }

  lemma LocalInRange(c: Config, s: State, t: nat)
    requires Shared(c, s) && t < |s.threads| && Local(c, s, t)
    ensures InRange(s, s.threads[t].pc)
  {
    hide Shared, LinInv, Skipped, Tracked;
  }

  ghost predicate Transition(c: Config, s: State, s': State) {
    exists t: nat, ch :: t < |s.threads| && Takes(c, s, t, ch, s') && Evolves(s, s', t)
  }

  lemma {:induction false} RunInv(c: Config, run: seq<State>, i: nat)
    requires GoodConfig(c) && Run(c, run) && i < |run|
    ensures Inv(c, run[i])
    ensures i > 0 ==> Transition(c, run[i - 1], run[i])
  {
    hide Inv, Step, Enabled, Init, InRange, Evolves;
    if i == 0 {
      InitInv(c, run[0]);
    } else {
      RunInv(c, run, i - 1);
      assert Next(c, run[i - 1], run[i - 1 + 1]);
      var t: nat, ch :| Shaped(run[i - 1]) && t < |run[i - 1].threads| && InRange(run[i - 1], run[i - 1].threads[t].pc)
                        && Enabled(c, run[i - 1], t, ch) && run[i] == Step(c, run[i - 1], t, ch);
      assert Takes(c, run[i - 1], t, ch, run[i]);
      StepInv(c, run[i - 1], t, ch, run[i]);
    }
  }
}
