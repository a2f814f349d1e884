// What DictMachine promises over whole runs: every operation behaves as one atomic operation on a plain map.
module Linearizability {
  import opened NodeCodec
  import opened Options
  import opened MapSpec
  import opened ProbeIndex
  import opened Migration
  import opened DictMachine
  import opened DictInvariant
  import opened StepInvariant

  function OpOfCont(cont: Cont): Op {
    match cont
    case Again(op) => op
    case Done(op, _) => op
  }

  function OpOf(pc: Pc): Option<Op> {
    match pc
    case Idle => None
    case Drop(cont, _, _) => Some(OpOfCont(cont))
    case GrowFetch(cont) => Some(OpOfCont(cont))
    case Elect(cont, _) => Some(OpOfCont(cont))
    case Follow(cont, _) => Some(OpOfCont(cont))
    case Lead(cont, _, _) => Some(OpOfCont(cont))
    case Migrating(cont, _) => Some(OpOfCont(cont))
    case Release(cont, _) => Some(OpOfCont(cont))
    case _ => Some(pc.op)
  }

  // ---- the history is the run ----

  ghost predicate Logged(run: seq<State>, i: nat)
    requires i < |run|
  {
    |run[i].log| == i + 1 && forall j :: 0 <= j <= i ==> run[i].log[j] == run[j].abs
  }

  lemma {:induction false} LogIsHistory(c: Config, run: seq<State>, i: nat)
    requires GoodConfig(c) && Run(c, run) && i < |run|
    ensures Logged(run, i)
  {
    hide Inv, Takes, Shared, Next;
    if i > 0 {
      LogIsHistory(c, run, i - 1);
      RunInv(c, run, i);
      LogGrows(c, run[i - 1], run[i]);
    }
  }

  lemma LogGrows(c: Config, s: State, s': State)
    requires Transition(c, s, s')
    ensures s'.log == s.log + [s'.abs] && |s'.threads| == |s.threads|
  {
    hide Takes;
  }

  // ---- what a step does to the threads ----

  // Thread t starts a call, keeps on with it or ends it; it takes effect at most once.
  ghost predicate Advances(s: State, s': State, t: nat, op: Op) {
    && t < |s.threads| == |s'.threads|
    && var a, b := s.threads[t], s'.threads[t];
       if a.pc.Idle? then s.log != [] && b == Thread(Fetch(op), |s.log| - 1, None) && s'.abs == s.abs
       else
         && b.start == a.start && (b.pc.Idle? || OpOf(b.pc) == OpOf(a.pc))
         && ((s'.abs == s.abs && b.lin == a.lin) ||
             (a.lin.None? && b.lin == Some(|s.log|) && (b.pc.Unlock? || b.pc.Bury?)))
  }

  lemma CallingAdvances(c: Config, s: State, t: nat, ch: Choice, s': State)
    requires Takes(c, s, t, ch, s')
    requires (s.threads[t].pc.Idle? || s.threads[t].pc.Fetch? || s.threads[t].pc.TryLock? || s.threads[t].pc.HelpCheck?)
    ensures Advances(s, s', t, ch.op)
  {
    hide Inv, Enabled;
  }

  lemma EnteringAdvances(c: Config, s: State, t: nat, ch: Choice, s': State)
    requires Takes(c, s, t, ch, s')
    requires (s.threads[t].pc.Block? || s.threads[t].pc.Check? || s.threads[t].pc.Drop? || s.threads[t].pc.Reserve?)
    ensures Advances(s, s', t, ch.op)
  {
    hide Inv, Enabled;
  }

  lemma UnlockAdvances(c: Config, s: State, t: nat, ch: Choice, s': State)
    requires Takes(c, s, t, ch, s') && s.threads[t].pc.Unlock?
    ensures Advances(s, s', t, ch.op)
  {
    hide Inv, Enabled, Counted;
  }

  lemma LeavingAdvances(c: Config, s: State, t: nat, ch: Choice, s': State)
    requires Takes(c, s, t, ch, s') && (s.threads[t].pc.Return? || s.threads[t].pc.GrowFetch?)
    ensures Advances(s, s', t, ch.op)
  {
    hide Inv, Enabled, Shaped;
  }

  lemma ElectAdvances(c: Config, s: State, t: nat, ch: Choice, s': State)
    requires Takes(c, s, t, ch, s') && s.threads[t].pc.Elect?
    ensures Advances(s, s', t, ch.op)
  {
    hide Inv, Enabled;
  }

  lemma FollowAdvances(c: Config, s: State, t: nat, ch: Choice, s': State)
    requires Takes(c, s, t, ch, s') && s.threads[t].pc.Follow?
    ensures Advances(s, s', t, ch.op)
  {
    hide Inv, Enabled, Shaped;
  }

  lemma MigratingAdvances(c: Config, s: State, t: nat, ch: Choice, s': State)
    requires t < |s.threads| && Takes(c, s, t, ch, s') && s.threads[t].pc.Migrating?
    ensures Advances(s, s', t, ch.op)
  {
    hide Takes, Shared;
    Own(c, s, t, ch, s');
    MigratingIs(c, s, t, ch, s');
  }

  lemma LeadAdvances(c: Config, s: State, t: nat, ch: Choice, s': State)
    requires Takes(c, s, t, ch, s') && s.threads[t].pc.Lead?
    ensures Advances(s, s', t, ch.op)
  {
    hide Inv, Enabled, Step, Shaped;
    LeadIs(c, s, t, ch, s');
  }

  lemma ReleaseAdvances(c: Config, s: State, t: nat, ch: Choice, s': State)
    requires Takes(c, s, t, ch, s') && s.threads[t].pc.Release?
    ensures Advances(s, s', t, ch.op)
  {
    hide Inv, Enabled, Step, Shaped;
    ReleaseIs(c, s, t, ch, s');
  }

  lemma ProbeNextOp(c: Config, log: nat, op: Op, g: nat, d: nat, loc: Option<nat>, slot: Slot)
    requires LogSize(log)
    ensures OpOf(ProbeNext(c, log, op, g, d, loc, slot)) == Some(op)
  {
  }

  lemma ProbeAdvances(c: Config, s: State, t: nat, ch: Choice, s': State)
    requires Takes(c, s, t, ch, s') && s.threads[t].pc.Probe?
    ensures Advances(s, s', t, ch.op)
  {
    hide Inv, Enabled, Step, ProbeNext;
    ProbeIs(c, s, t, ch, s');
    var pc := s.threads[t].pc;
    if pc.distance < |s.metas[pc.g].index| {
      ProbeNextOp(c, s.metas[pc.g].log, pc.op, pc.g, pc.distance, pc.loc,
          s.metas[pc.g].index[SlotNo(c, s, pc.op.key, pc.g, pc.distance)]);
    }
  }

  lemma WithValueOp(op: Op, g: nat, d: nat, loc: Option<nat>, x: nat, v: Value)
    ensures OpOf(WithValue(op, g, d, loc, x, v)) == Some(op)
  {
  }

  lemma CompareAdvances(c: Config, s: State, t: nat, ch: Choice, s': State)
    requires Takes(c, s, t, ch, s') && (s.threads[t].pc.Load? || s.threads[t].pc.Compare?)
    ensures Advances(s, s', t, ch.op)
  {
    hide Inv, Enabled, Step, WithValue;
    var pc := s.threads[t].pc;
    if pc.Compare? {
      CompareIs(c, s, t, ch, s');
      WithValueOp(pc.op, pc.g, pc.distance, pc.loc, pc.x, pc.v);
    } else {
      LoadIs(c, s, t, ch, s');
    }
  }

  lemma ReloadAdvances(c: Config, s: State, t: nat, ch: Choice, s': State)
    requires Takes(c, s, t, ch, s') && s.threads[t].pc.Reload?
    ensures Advances(s, s', t, ch.op)
  {
    hide Inv, Enabled, Step, WithValue;
    var pc := s.threads[t].pc;
    ReloadIs(c, s, t, ch, s');
    if pc.x in s.entries && s.entries[pc.x].value.Some? {
      WithValueOp(pc.op, pc.g, pc.distance, pc.loc, pc.x, s.entries[pc.x].value.value);
    }
  }

  lemma SwapAdvances(c: Config, s: State, t: nat, ch: Choice, s': State)
    requires Takes(c, s, t, ch, s') && s.threads[t].pc.Swap?
    ensures Advances(s, s', t, ch.op)
  {
    hide Inv, Enabled, Step, Shared, LockInv, ProbeInv;
    Own(c, s, t, ch, s');
    SwapIs(c, s, t, ch, s');
  }

  lemma PublishAdvances(c: Config, s: State, t: nat, ch: Choice, s': State)
    requires Takes(c, s, t, ch, s') && s.threads[t].pc.Publish?
    ensures Advances(s, s', t, ch.op)
  {
    hide Inv, Enabled, Step, Shared, LockInv, ProbeInv;
    Own(c, s, t, ch, s');
    PublishIs(c, s, t, ch, s');
  }

  lemma BuryAdvances(c: Config, s: State, t: nat, ch: Choice, s': State)
    requires Takes(c, s, t, ch, s') && s.threads[t].pc.Bury?
    ensures Advances(s, s', t, ch.op)
  {
    hide Inv, Enabled, Step, Shared, LockInv, ProbeInv;
    Own(c, s, t, ch, s');
    BuryIs(c, s, t, ch, s');
  }

  lemma StepAdvances(c: Config, s: State, t: nat, ch: Choice, s': State)
    requires t < |s.threads| && Takes(c, s, t, ch, s')
    ensures Advances(s, s', t, ch.op)
  {
    hide Takes, Advances;
    var pc := s.threads[t].pc;
    if pc.Idle? || pc.Fetch? || pc.TryLock? || pc.HelpCheck? {
      CallingAdvances(c, s, t, ch, s');
    } else if pc.Block? || pc.Check? || pc.Drop? || pc.Reserve? {
      EnteringAdvances(c, s, t, ch, s');
    } else if pc.Unlock? {
      UnlockAdvances(c, s, t, ch, s');
    } else if pc.Return? || pc.GrowFetch? {
      LeavingAdvances(c, s, t, ch, s');
    } else if pc.Elect? {
      ElectAdvances(c, s, t, ch, s');
    } else if pc.Follow? {
      FollowAdvances(c, s, t, ch, s');
    } else if pc.Migrating? {
      MigratingAdvances(c, s, t, ch, s');
    } else if pc.Swap? {
      SwapAdvances(c, s, t, ch, s');
    } else if pc.Publish? {
      PublishAdvances(c, s, t, ch, s');
    } else if pc.Bury? {
      BuryAdvances(c, s, t, ch, s');
    } else if pc.Lead? {
      LeadAdvances(c, s, t, ch, s');
    } else if pc.Release? {
      ReleaseAdvances(c, s, t, ch, s');
    } else if pc.Probe? {
      ProbeAdvances(c, s, t, ch, s');
    } else if pc.Reload? {
      ReloadAdvances(c, s, t, ch, s');
    } else {
      CompareAdvances(c, s, t, ch, s');
    }
  }

  // ---- a call, from its beginning ----

  // Since the moment `start`, when thread t was idle and made the call, it has been busy with it.
  ghost predicate Calling(run: seq<State>, start: nat, i: nat, t: nat, op: Op) {
    && start < i < |run|
    && (forall j :: start <= j <= i ==> t < |run[j].threads|)
    && run[start].threads[t].pc.Idle? && run[start + 1].threads[t].pc == Fetch(op)
    && forall j :: start < j <= i ==> OpOf(run[j].threads[t].pc) == Some(op) && run[j].threads[t].start == start
  }

  lemma {:induction false} CallBegan(c: Config, run: seq<State>, i: nat, t: nat)
    requires GoodConfig(c) && Run(c, run) && i < |run| && t < |run[i].threads|
    ensures var th := run[i].threads[t]; th.pc.Idle? || Calling(run, th.start, i, t, OpOf(th.pc).value)
    ensures |run[i].threads| == |run[0].threads|
  {
    hide Inv, Takes, Evolves, Run, Advances;
    RunInv(c, run, i);
    if i == 0 {
      StartsIdle(c, run, t);
    } else {
      var u: nat, ch :| u < |run[i - 1].threads| && Takes(c, run[i - 1], u, ch, run[i])
          && Evolves(run[i - 1], run[i], u);
      LogGrows(c, run[i - 1], run[i]);
      CallBegan(c, run, i - 1, t);
      LogIsHistory(c, run, i - 1);
      StepAdvances(c, run[i - 1], u, ch, run[i]);
      CallContinues(c, run, i, t, u, ch.op);
    }
  }

  lemma StartsIdle(c: Config, run: seq<State>, t: nat)
    requires Run(c, run) && t < |run[0].threads|
    ensures run[0].threads[t].pc.Idle?
  {
  }

  lemma CallContinues(c: Config, run: seq<State>, i: nat, t: nat, u: nat, op: Op)
    requires 0 < i < |run| && t < |run[i - 1].threads| == |run[i].threads| && |run[i - 1].log| == i
    requires Advances(run[i - 1], run[i], u, op) && Evolves(run[i - 1], run[i], u)
    requires var th := run[i - 1].threads[t]; th.pc.Idle? || Calling(run, th.start, i - 1, t, OpOf(th.pc).value)
    ensures var th := run[i].threads[t]; th.pc.Idle? || Calling(run, th.start, i, t, OpOf(th.pc).value)
  {
    hide EntriesEvolve, MetasEvolve, MapEvolves;
  }

  // ---- linearizability ----

  // Thread t's operation takes effect at moment m, and it has not taken effect before.
  ghost predicate EffectAt(run: seq<State>, m: nat, t: nat, op: Op) {
    && 0 < m < |run| && t < |run[m - 1].threads| == |run[m].threads|
    && OpOf(run[m - 1].threads[t].pc) == Some(op) && run[m - 1].threads[t].lin.None?
    && run[m].threads[t].lin == Some(m)
    && Atomically(op, run[m - 1].abs).after == run[m].abs
    && forall u :: 0 <= u < |run[m].threads| && u != t ==> run[m].threads[u] == run[m - 1].threads[u]
  }

  // Thread t's step to state m changes the map, or gives t its moment.
  ghost predicate TakesEffect(run: seq<State>, m: nat, t: nat) {
    && 0 < m < |run| && t < |run[m - 1].threads| && t < |run[m].threads|
    && (run[m].abs != run[m - 1].abs
          || (!run[m - 1].threads[t].pc.Idle? && run[m].threads[t].lin != run[m - 1].threads[t].lin))
  }

  lemma EffectOf(c: Config, run: seq<State>, m: nat, t: nat, op: Op)
    requires TakesEffect(run, m, t) && Logged(run, m) && Logged(run, m - 1)
    requires Advances(run[m - 1], run[m], t, op) && Evolves(run[m - 1], run[m], t) && Inv(c, run[m])
    ensures OpOf(run[m].threads[t].pc).Some? && EffectAt(run, m, t, OpOf(run[m].threads[t].pc).value)
  {
    hide Shared, LockInv, ProbeInv, EntriesEvolve, MetasEvolve, MapEvolves;
    assert Local(c, run[m], t);
  }

  // A busy thread whose operation has its moment took its one effect at that moment.
  lemma {:induction false} EffectTaken(c: Config, run: seq<State>, i: nat, t: nat)
    requires GoodConfig(c) && Run(c, run) && i < |run| && t < |run[i].threads|
    ensures var th := run[i].threads[t];
            !th.pc.Idle? && th.lin.Some? ==> OpOf(th.pc).Some? && EffectAt(run, th.lin.value, t, OpOf(th.pc).value)
  {
    hide Inv, Takes, Evolves, Run, Advances, EffectAt;
    RunInv(c, run, i);
    if i == 0 {
      StartsIdle(c, run, t);
    } else {
      var u: nat, ch :| u < |run[i - 1].threads| && Takes(c, run[i - 1], u, ch, run[i])
          && Evolves(run[i - 1], run[i], u);
      LogGrows(c, run[i - 1], run[i]);
      EffectTaken(c, run, i - 1, t);
      LogIsHistory(c, run, i - 1);
      LogIsHistory(c, run, i);
      StepAdvances(c, run[i - 1], u, ch, run[i]);
      if TakesEffect(run, i, u) {
        EffectOf(c, run, i, u, ch.op);
        EffectMoment(run, i, u, OpOf(run[i].threads[u].pc).value);
      }
      EffectKept(run, i, t, u, ch.op);
    }
  }

  lemma EffectMoment(run: seq<State>, m: nat, t: nat, op: Op)
    requires EffectAt(run, m, t, op)
    ensures t < |run[m].threads| && run[m].threads[t].lin == Some(m)
  {
  }

  lemma EffectKept(run: seq<State>, i: nat, t: nat, u: nat, op: Op)
    requires 0 < i < |run| && t < |run[i - 1].threads| == |run[i].threads|
    requires Advances(run[i - 1], run[i], u, op) && Evolves(run[i - 1], run[i], u)
    requires var th := run[i - 1].threads[t];
             !th.pc.Idle? && th.lin.Some? ==> OpOf(th.pc).Some? && EffectAt(run, th.lin.value, t, OpOf(th.pc).value)
    requires TakesEffect(run, i, u) ==>
               OpOf(run[i].threads[u].pc).Some? && EffectAt(run, i, u, OpOf(run[i].threads[u].pc).value)
                   && run[i].threads[u].lin == Some(i)
    ensures var th := run[i].threads[t];
            !th.pc.Idle? && th.lin.Some? ==> OpOf(th.pc).Some? && EffectAt(run, th.lin.value, t, OpOf(th.pc).value)
  {
    hide EntriesEvolve, MetasEvolve, MapEvolves, EffectAt;
  }

  // The operation's one moment: its own effect on the map, or, for an operation that had none, a moment at
  // which it only looked.
  ghost predicate Linearized(run: seq<State>, i: nat, t: nat, op: Op, r: Result)
    requires i < |run| && t < |run[i].threads|
  {
    var th := run[i].threads[t];
    match th.lin
    case Some(m) =>
      th.start < m <= i && EffectAt(run, m, t, op) && Atomically(op, run[m - 1].abs) == Outcome(r, run[m].abs)
    case None => exists m :: th.start <= m <= i && Atomically(op, run[m].abs) == Outcome(r, run[m].abs)
  }

  lemma ReturnJustified(c: Config, s: State, t: nat, op: Op, r: Result)
    requires Inv(c, s) && t < |s.threads| && s.threads[t].pc == Return(op, r)
    ensures Justified(s.log, s.threads[t], op, r)
  {
    hide Shared, LockInv, ProbeInv, Justified;
    assert Local(c, s, t);
  }

  lemma JustifiedInRun(run: seq<State>, i: nat, t: nat, op: Op, r: Result)
    requires i < |run| && Logged(run, i) && t < |run[i].threads| && Justified(run[i].log, run[i].threads[t], op, r)
    requires run[i].threads[t].lin.Some? ==> EffectAt(run, run[i].threads[t].lin.value, t, op)
    ensures Linearized(run, i, t, op, r)
  {
    hide EffectAt, Atomically;
    var log, th := run[i].log, run[i].threads[t];
    if th.lin.None? {
      var m :| th.start <= m < |log| && Atomically(op, log[m]) == Outcome(r, log[m]);
      assert log[m] == run[m].abs;
    }
  }

  // Every completed get, compare-and-set and delete returns what one atomic operation on a plain map
  // returns at a moment between its call and its return, for any number of threads and any interleaving.
  lemma Linearizable(c: Config, run: seq<State>, i: nat, t: nat, op: Op, r: Result)
    requires GoodConfig(c) && Run(c, run) && i < |run| && t < |run[i].threads|
    requires run[i].threads[t].pc == Return(op, r)
    ensures Calling(run, run[i].threads[t].start, i, t, op)
    ensures Linearized(run, i, t, op, r)
  {
    hide Inv, Run, EffectAt, Calling, Justified, Linearized, Logged;
    RunInv(c, run, i);
    CallBegan(c, run, i, t);
    LogIsHistory(c, run, i);
    EffectTaken(c, run, i, t);
    ReturnJustified(c, run[i], t, op, r);
    JustifiedInRun(run, i, t, op, r);
  }

  // Moments of effect are one-to-one: two calls that return with the same moment are the same call.
  lemma EffectsDistinct(c: Config, run: seq<State>, i: nat, t: nat, op: Op, r: Result, j: nat, u: nat, op': Op,
      r': Result)
    requires GoodConfig(c) && Run(c, run) && i < |run| && t < |run[i].threads| && j < |run| && u < |run[j].threads|
    requires run[i].threads[t].pc == Return(op, r) && run[j].threads[u].pc == Return(op', r')
    requires run[i].threads[t].lin.Some? && run[i].threads[t].lin == run[j].threads[u].lin
    ensures t == u && op == op' && r == r' && run[i].threads[t].start == run[j].threads[u].start
  {
    hide Run;
    Linearizable(c, run, i, t, op, r);
    Linearizable(c, run, j, u, op', r');
  }

  // The map changes only by the operations, each of them at one moment.
  lemma OneEffect(c: Config, run: seq<State>, m: nat)
    requires GoodConfig(c) && Run(c, run) && 0 < m < |run|
    ensures run[m].abs == run[m - 1].abs || exists t: nat, op :: EffectAt(run, m, t, op)
  {
    hide Inv, Takes, Evolves, Run, Advances, EffectAt;
    RunInv(c, run, m);
    var t: nat, ch :| t < |run[m - 1].threads| && Takes(c, run[m - 1], t, ch, run[m]) && Evolves(run[m - 1], run[m], t);
    StepAdvances(c, run[m - 1], t, ch, run[m]);
    LogGrows(c, run[m - 1], run[m]);
    LogIsHistory(c, run, m);
    LogIsHistory(c, run, m - 1);
    if run[m].abs != run[m - 1].abs {
      EffectOf(c, run, m, t, ch.op);
    }
  }

  // ---- readers of a replaced generation ----

  // Thread t's get reads generation g, or has its answer.
  predicate Reads(pc: Pc, k: Key, g: nat) {
    match pc
    case Probe(op, h, _, _) => op == Get(k) && h == g
    case Load(op, h, _, _, _) => op == Get(k) && h == g
    case Compare(op, h, _, _, _, _) => op == Get(k) && h == g
    case Return(op, _) => op == Get(k)
    case _ => false
  }

  lemma ProbeStays(c: Config, s: State, t: nat, ch: Choice, s': State, k: Key, g: nat)
    requires Takes(c, s, t, ch, s') && Reads(s.threads[t].pc, k, g) && s.threads[t].pc.Probe?
    ensures t < |s'.threads| && Reads(s'.threads[t].pc, k, g)
  {
    hide Inv, Enabled, Step, ProbeNext, Reads;
    ProbeIs(c, s, t, ch, s');
    var pc := s.threads[t].pc;
    ReadsWhat(pc, k, g);
    if pc.distance < |s.metas[g].index| {
      ProbeNextReads(c, s.metas[g].log, k, g, pc.distance, pc.loc, s.metas[g].index[SlotNo(c, s, k, g, pc.distance)]);
    }
  }

  lemma ReadsWhat(pc: Pc, k: Key, g: nat)
    requires Reads(pc, k, g) && pc.Probe?
    ensures pc.op == Get(k) && pc.g == g && Reads(Return(pc.op, AbsentResult(pc.op)), k, g)
  {
  }

  lemma ProbeNextReads(c: Config, log: nat, k: Key, g: nat, d: nat, loc: Option<nat>, slot: Slot)
    requires LogSize(log)
    ensures Reads(ProbeNext(c, log, Get(k), g, d, loc, slot), k, g)
  {
  }

  lemma LoadStays(c: Config, s: State, t: nat, ch: Choice, s': State, k: Key, g: nat)
    requires Takes(c, s, t, ch, s') && Reads(s.threads[t].pc, k, g) && s.threads[t].pc.Load?
    ensures t < |s'.threads| && Reads(s'.threads[t].pc, k, g)
  {
    hide Inv, Enabled, Step;
    LoadIs(c, s, t, ch, s');
  }

  lemma CompareStays(c: Config, s: State, t: nat, ch: Choice, s': State, k: Key, g: nat)
    requires Takes(c, s, t, ch, s') && Reads(s.threads[t].pc, k, g) && s.threads[t].pc.Compare?
    ensures t < |s'.threads| && Reads(s'.threads[t].pc, k, g)
  {
    hide Inv, Enabled, Step;
    CompareIs(c, s, t, ch, s');
  }

  lemma ReaderStays(c: Config, s: State, t: nat, ch: Choice, s': State, k: Key, g: nat)
    requires t < |s.threads| && Takes(c, s, t, ch, s') && Reads(s.threads[t].pc, k, g) && !s.threads[t].pc.Return?
    ensures t < |s'.threads| && Reads(s'.threads[t].pc, k, g)
  {
    hide Takes;
    match s.threads[t].pc {
      case Probe(_, _, _, _) => ProbeStays(c, s, t, ch, s', k, g);
      case Load(_, _, _, _, _) => LoadStays(c, s, t, ch, s', k, g);
      case _ => CompareStays(c, s, t, ch, s', k, g);
    }
  }

  lemma ReturnLeaves(c: Config, s: State, t: nat, ch: Choice, s': State)
    requires Takes(c, s, t, ch, s') && s.threads[t].pc.Return?
    ensures t < |s'.threads| && s'.threads[t].pc.Idle?
  {
    hide Inv, Enabled;
  }

  lemma {:induction false} NeverRefetches(c: Config, run: seq<State>, j: nat, i: nat, t: nat, k: Key, g: nat)
    requires GoodConfig(c) && Run(c, run) && j <= i < |run| && t < |run[j].threads|
    requires Reads(run[j].threads[t].pc, k, g)
    requires forall n :: j <= n <= i ==> t < |run[n].threads| && !run[n].threads[t].pc.Idle?
    ensures Reads(run[i].threads[t].pc, k, g)
    decreases i
  {
    hide Inv, Takes, Run, Reads, EntriesEvolve, MetasEvolve, MapEvolves;
    if j < i {
      NeverRefetches(c, run, j, i - 1, t, k, g);
      RunInv(c, run, i);
      var u: nat, ch :| u < |run[i - 1].threads| && Takes(c, run[i - 1], u, ch, run[i])
          && Evolves(run[i - 1], run[i], u);
      if u == t {
        if run[i - 1].threads[t].pc.Return? {
          ReturnLeaves(c, run[i - 1], t, ch, run[i]);
          assert false;
        } else {
          ReaderStays(c, run[i - 1], t, ch, run[i], k, g);
        }
      }
    }
  }

  // A get that is still probing generation g after newer ones were published never looks at those, and yet
  // answers rightly: the key held the value, or was absent, at a moment of the call.
  lemma StaleReader(c: Config, run: seq<State>, j: nat, i: nat, t: nat, k: Key, g: nat, r: Result)
    requires GoodConfig(c) && Run(c, run) && j <= i < |run| && t < |run[j].threads| && t < |run[i].threads|
    requires run[j].threads[t].pc.Probe? && Reads(run[j].threads[t].pc, k, g) && g + 1 < |run[j].metas|
    requires run[i].threads[t].pc == Return(Get(k), r) && run[i].threads[t].start == run[j].threads[t].start
    ensures forall n :: j <= n <= i ==> t < |run[n].threads| && Reads(run[n].threads[t].pc, k, g)
    ensures match r
            case Returned(v) => exists m :: run[i].threads[t].start <= m <= i && k in run[m].abs && run[m].abs[k] == v
            case WasNotFound => exists m :: run[i].threads[t].start <= m <= i && k !in run[m].abs
            case _ => false
  {
    hide Run, Reads, Inv, EffectAt;
    Linearizable(c, run, i, t, Get(k), r);
    CallBegan(c, run, j, t);
    var th := run[i].threads[t];
    Answered(run, i, t, k, r);
    assert Calling(run, th.start, i, t, Get(k));
    assert run[j].threads[t].pc.Probe?;
    assert th.start < j;
    forall n | j <= n <= i
      ensures t < |run[n].threads| && Reads(run[n].threads[t].pc, k, g)
    {
      NeverRefetches(c, run, j, n, t, k, g);
    }
  }

  lemma Answered(run: seq<State>, i: nat, t: nat, k: Key, r: Result)
    requires i < |run| && t < |run[i].threads| && Linearized(run, i, t, Get(k), r)
    ensures match r
            case Returned(v) => exists m :: run[i].threads[t].start <= m <= i && k in run[m].abs && run[m].abs[k] == v
            case WasNotFound => exists m :: run[i].threads[t].start <= m <= i && k !in run[m].abs
            case _ => false
  {
    var th := run[i].threads[t];
    if th.lin.Some? {
      var m := th.lin.value;
      assert Atomically(Get(k), run[m - 1].abs) == Outcome(r, run[m].abs);
    } else {
      var m :| th.start <= m <= i && Atomically(Get(k), run[m].abs) == Outcome(r, run[m].abs);
    }
  }

  // ---- what every reachable state has ----

  // No thread ever points outside the generations it knows: the guard InRange of a step excludes nothing.
  lemma AlwaysInRange(c: Config, run: seq<State>, i: nat, t: nat)
    requires GoodConfig(c) && Run(c, run) && i < |run| && t < |run[i].threads|
    ensures Shaped(run[i]) && InRange(run[i], run[i].threads[t].pc)
  {
    hide Run, Shared, InRange;
    RunInv(c, run, i);
    HasLog(c, run[i]);
    LocalInRange(c, run[i], t);
  }

  // There is always an empty slot, and no probe goes round the whole index.
  lemma AlwaysRoom(c: Config, run: seq<State>, i: nat, g: nat)
    requires GoodConfig(c) && Run(c, run) && i < |run| && g < |run[i].metas|
    ensures HasEmpty(run[i].metas[g].index)
    ensures forall t :: 0 <= t < |run[i].threads| && run[i].threads[t].pc.Probe? && run[i].threads[t].pc.g == g ==>
              run[i].threads[t].pc.distance < |run[i].metas[g].index|
  {
    hide Run, WellFormed, LockInv, LinInv, EntriesOk, MapOk, BuryDistinct;
    RunInv(c, run, i);
    var s := run[i];
    assert IndexOk(c, s, g);
    AlwaysEmptySlot(s.metas[g], s.published);
    forall t | 0 <= t < |s.threads| && s.threads[t].pc.Probe? && s.threads[t].pc.g == g
      ensures s.threads[t].pc.distance < |s.metas[g].index|
    {
      assert Local(c, s, t);
      NotExhausted(c, s, s.threads[t].pc.op.key, g, s.threads[t].pc.distance);
    }
  }

  // The CAS that buries a deleted node always meets the node it read.
  lemma TombstoneCasSucceeds(c: Config, run: seq<State>, i: nat, t: nat)
    requires GoodConfig(c) && Run(c, run) && i < |run| && t < |run[i].threads| && run[i].threads[t].pc.Bury?
    ensures Shaped(run[i]) && run[i].threads[t].pc.g < |run[i].metas|
    ensures var pc := run[i].threads[t].pc;
            var slot := run[i].metas[pc.g].index[SlotNo(c, run[i], pc.op.key, pc.g, pc.distance)];
            slot.Node? && slot.index == pc.x
  {
    hide Run, LockInv, LinInv;
    RunInv(c, run, i);
    assert Local(c, run[i], t);
  }

  ghost predicate Still(s: State, s': State) {
    && s'.abs == s.abs && s'.entries == s.entries && s'.published == s.published
    && |s'.metas| == |s.metas| && forall g :: 0 <= g < |s.metas| ==> s'.metas[g].index == s.metas[g].index
  }

  // A thread outside the critical section changes neither the table nor the map.
  lemma QuietOutside(c: Config, s: State, t: nat, ch: Choice, s': State)
    requires Takes(c, s, t, ch, s') && !InCriticalSection(s.threads[t].pc)
    ensures Still(s, s')
  {
    hide Inv, Step, Enabled;
    var pc := s.threads[t].pc;
    if pc.Lead? || pc.Release? {
      QuietLocks(c, s, t, ch, s');
    } else if pc.Probe? || pc.Load? || pc.Compare? {
      QuietReads(c, s, t, ch, s');
    } else {
      QuietWaits(c, s, t, ch, s');
    }
  }

  lemma QuietLocks(c: Config, s: State, t: nat, ch: Choice, s': State)
    requires Takes(c, s, t, ch, s') && (s.threads[t].pc.Lead? || s.threads[t].pc.Release?)
    ensures Still(s, s')
  {
    hide Inv, Step, Enabled;
    if s.threads[t].pc.Lead? { LeadIs(c, s, t, ch, s'); } else { ReleaseIs(c, s, t, ch, s'); }
  }

  lemma QuietReads(c: Config, s: State, t: nat, ch: Choice, s': State)
    requires Takes(c, s, t, ch, s') && (s.threads[t].pc.Probe? || s.threads[t].pc.Load? || s.threads[t].pc.Compare?)
    ensures Still(s, s')
  {
    hide Inv, Step, Enabled, ProbeNext, WithValue;
    match s.threads[t].pc {
      case Probe(_, _, _, _) => ProbeIs(c, s, t, ch, s');
      case Load(_, _, _, _, _) => LoadIs(c, s, t, ch, s');
      case _ => CompareIs(c, s, t, ch, s');
    }
  }

  lemma QuietWaits(c: Config, s: State, t: nat, ch: Choice, s': State)
    requires Takes(c, s, t, ch, s')
    requires match s.threads[t].pc
             case Idle => true
             case Fetch(_) => true
             case TryLock(_, _) => true
             case HelpCheck(_, _) => true
             case Block(_, _) => true
             case Return(_, _) => true
             case GrowFetch(_) => true
             case Elect(_, _) => true
             case Follow(_, _) => true
             case _ => false
    ensures Still(s, s')
  {
    hide Inv, Enabled;
  }

  // Freeze: while the leader holds every lock, no other thread's step changes an index, an entry that is
  // published, or the map.
  lemma FrozenWhileMigrating(c: Config, s: State, u: nat, t: nat, ch: Choice, s': State)
    requires Takes(c, s, t, ch, s') && u < |s.threads| && s.threads[u].pc.Migrating? && t != u
    ensures Still(s, s') && !InCriticalSection(s.threads[t].pc)
  {
    hide Shared, LinInv, ProbeInv, Step, Enabled;
    assert Local(c, s, u) && Local(c, s, t);
    HasLog(c, s);
    assert s.mutex[t] == Some(u);
    QuietOutside(c, s, t, ch, s');
  }

  predicate InCriticalSection(pc: Pc) {
    match pc
    case Check(_, _) => true
    case Drop(_, _, _) => true
    case Reserve(_, _) => true
    case Probe(op, _, _, _) => !op.Get?
    case Load(op, _, _, _, _) => !op.Get?
    case Compare(op, _, _, _, _, _) => !op.Get?
    case Swap(_, _, _, _, _, _) => true
    case Reload(_, _, _, _, _) => true
    case Publish(_, _, _, _) => true
    case Bury(_, _, _, _) => true
    case Unlock(_, _, _) => true
    case Migrating(_, _) => true
    case _ => false
  }

  // ---- succession of generations ----

  // From state i to state j: generations are only added, each twice the size of the one before, and a
  // generation that has a leader keeps that leader.
  ghost predicate Succession(run: seq<State>, i: nat, j: nat) {
    && i <= j < |run| && |run[i].metas| <= |run[j].metas|
    && (forall g :: 0 <= g < |run[i].metas| ==>
          && run[j].metas[g].log == run[i].metas[g].log
          && (run[i].metas[g].leader.Some? ==> run[j].metas[g].leader == run[i].metas[g].leader))
    && (forall g :: 0 < g < |run[j].metas| ==> run[j].metas[g].log == run[j].metas[g - 1].log + 1)
    && (forall g :: 0 <= g < |run[j].metas| - 1 ==> run[j].metas[g].leader.Some?)
  }

  lemma {:induction false} SingleSuccession(c: Config, run: seq<State>, i: nat, j: nat)
    requires GoodConfig(c) && Run(c, run) && i <= j < |run|
    ensures Succession(run, i, j)
    decreases j
  {
    hide Inv, Takes, Evolves, Run;
    RunInv(c, run, j);
    NewestUnled(c, run[j]);
    if j == 0 {
      FirstGeneration(c, run);
    } else {
      var t: nat, ch :| t < |run[j - 1].threads| && Takes(c, run[j - 1], t, ch, run[j])
          && Evolves(run[j - 1], run[j], t);
      SingleSuccession(c, run, if i < j then i else j - 1, j - 1);
      StepSucceeds(c, run[j - 1], t, ch, run[j]);
      OlderKept(run[j - 1], run[j], t);
    }
  }

  lemma NewestUnled(c: Config, s: State)
    requires Inv(c, s)
    ensures forall g :: 0 <= g < |s.metas| - 1 ==> s.metas[g].leader.Some?
  {
  }

  lemma FirstGeneration(c: Config, run: seq<State>)
    requires Run(c, run)
    ensures |run[0].metas| == 1
  {
  }

  lemma OlderKept(s: State, s': State, t: nat)
    requires t < |s.threads| && Evolves(s, s', t)
    ensures |s.metas| <= |s'.metas|
    ensures forall g :: 0 <= g < |s.metas| ==>
              && s'.metas[g].log == s.metas[g].log
              && (s.metas[g].leader.Some? ==> s'.metas[g].leader == s.metas[g].leader)
  {
    hide EntriesEvolve, MapEvolves, LocksEvolve;
  }

  // Only publication adds a generation. The generation it replaces is still the current one, so the CAS
  // that publishes the new one does not fail.
  lemma StepSucceeds(c: Config, s: State, t: nat, ch: Choice, s': State)
    requires Takes(c, s, t, ch, s')
    ensures s.threads[t].pc.Migrating? ==> s.threads[t].pc.g == Current(s) && s.metas[Current(s)].leader == Some(t)
    ensures |s'.metas| == |s.metas| ||
            (s.threads[t].pc.Migrating? && |s'.metas| == |s.metas| + 1 && |s.metas| > 0
                && s'.metas[|s.metas|].log == s.metas[|s.metas| - 1].log + 1)
  {
    hide Inv, Shared, Enabled, Step;
    Own(c, s, t, ch, s');
    var pc := s.threads[t].pc;
    if pc.Migrating? {
      MigratingAdds(c, s, t, ch, s');
    } else if !InCriticalSection(pc) {
      QuietOutside(c, s, t, ch, s');
    } else {
      CriticalKeeps(c, s, t, ch, s');
    }
  }

  lemma MigratingAdds(c: Config, s: State, t: nat, ch: Choice, s': State)
    requires Takes(c, s, t, ch, s') && s.threads[t].pc.Migrating? && LockInv(s, t)
    ensures s.threads[t].pc.g == Current(s) && s.metas[Current(s)].leader == Some(t)
    ensures |s'.metas| == |s.metas| + 1 && |s.metas| > 0 && s'.metas[|s.metas|].log == s.metas[|s.metas| - 1].log + 1
  {
    hide Inv;
  }

  lemma CriticalKeeps(c: Config, s: State, t: nat, ch: Choice, s': State)
    requires t < |s.threads| && Takes(c, s, t, ch, s') && InCriticalSection(s.threads[t].pc)
    requires !s.threads[t].pc.Migrating?
    ensures |s'.metas| == |s.metas|
  {
    hide Takes;
    var pc := s.threads[t].pc;
    if pc.Probe? || pc.Load? || pc.Compare? || pc.Reload? {
      LookingKeeps(c, s, t, ch, s');
    } else if pc.Swap? || pc.Publish? || pc.Bury? {
      ChangingKeeps(c, s, t, ch, s');
    } else {
      LocalKeeps(c, s, t, ch, s');
    }
  }

  lemma LookingKeeps(c: Config, s: State, t: nat, ch: Choice, s': State)
    requires Takes(c, s, t, ch, s')
    requires var pc := s.threads[t].pc; pc.Probe? || pc.Load? || pc.Compare? || pc.Reload?
    ensures |s'.metas| == |s.metas|
  {
    hide Inv, Step, Enabled, ProbeNext, WithValue;
    match s.threads[t].pc {
      case Probe(_, _, _, _) => ProbeIs(c, s, t, ch, s');
      case Load(_, _, _, _, _) => LoadIs(c, s, t, ch, s');
      case Compare(_, _, _, _, _, _) => CompareIs(c, s, t, ch, s');
      case _ => ReloadIs(c, s, t, ch, s');
    }
  }

  lemma ChangingKeeps(c: Config, s: State, t: nat, ch: Choice, s': State)
    requires Takes(c, s, t, ch, s') && (s.threads[t].pc.Swap? || s.threads[t].pc.Publish? || s.threads[t].pc.Bury?)
    ensures |s'.metas| == |s.metas|
  {
    hide Inv, Step, Enabled;
    match s.threads[t].pc {
      case Swap(_, _, _, _, _, _) => SwapIs(c, s, t, ch, s');
      case Publish(_, _, _, _) => PublishIs(c, s, t, ch, s');
      case _ => BuryIs(c, s, t, ch, s');
    }
  }

  lemma LocalKeeps(c: Config, s: State, t: nat, ch: Choice, s': State)
    requires Takes(c, s, t, ch, s')
    requires s.threads[t].pc.Check? || s.threads[t].pc.Drop? || s.threads[t].pc.Reserve? || s.threads[t].pc.Unlock?
    ensures |s'.metas| == |s.metas|
  {
    hide Inv, Enabled;
  }

  // ---- the migration that the machine takes in one step ----

  // The index that the participants of a resize leave behind is what DictMachine publishes.
  lemma NewIndexIsMigrated(g: Generation)
    requires g.Valid()
    ensures Migrated(g.index, NewIndex(g), g.log, g.rehash)
  {
    NewIndexWellFormed(g);
    NewIndexNoTombstones(g);
  }

  // And the frozen index meets the assumptions of the migration.
  lemma MigrationApplies(c: Config, run: seq<State>, i: nat, t: nat)
    requires GoodConfig(c) && Run(c, run) && i < |run| && t < |run[i].threads|
    requires run[i].threads[t].pc.Migrating?
    ensures run[i].threads[t].pc.g < |run[i].metas|
    ensures var m := run[i].metas[run[i].threads[t].pc.g];
            var gen := Generation(m.index, m.log, Rehashed(run[i].entries, c.rehash));
            LogSize(m.log + 1) ==>
              && gen.Valid()
              && forall op, loc, grow :: Shaped(run[i]) && Enabled(c, run[i], t, Choice(op, loc, grow, NewIndex(gen)))
  {
    hide Run, LinInv, ProbeInv, EntriesOk, MapOk, BuryDistinct, WellFormed;
    RunInv(c, run, i);
    var s := run[i];
    assert Local(c, s, t);
    var g := s.threads[t].pc.g;
    assert IndexOk(c, s, g);
    AlwaysEmptySlot(s.metas[g], s.published);
    if LogSize(s.metas[g].log + 1) {
      NewIndexIsMigrated(Generation(s.metas[g].index, s.metas[g].log, Rehashed(s.entries, c.rehash)));
    }
  }
}
