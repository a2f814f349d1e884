// The length counters of DictMachine: self->len and the local_len of every accessor add up to the number of
// keys, but for what operations under way have not counted yet (accessor_len_inc). How len() folds the
// counters is module ResizeLength.
module DictLength {
  import opened NodeCodec
  import opened Options
  import opened MapSpec
  import opened ProbeIndex
  import opened DictMachine
  import opened DictInvariant
  import opened StepInvariant
  import opened Linearizability

  // What an operation has done to the map and not counted yet.
  function Uncounted(pc: Pc): int {
    match pc
    case Unlock(op, _, r) => Counted(op, r)
    case Bury(_, _, _, _) => -1
    case _ => 0
  }

  function Sum(local: seq<int>): int {
    if local == [] then 0 else Sum(local[..|local| - 1]) + local[|local| - 1]
  }

  function SumUncounted(ts: seq<Thread>): int {
    if ts == [] then 0 else SumUncounted(ts[..|ts| - 1]) + Uncounted(ts[|ts| - 1].pc)
  }

  lemma {:induction false} SumUpdate(a: seq<int>, b: seq<int>, t: nat)
    requires t < |a| == |b| && forall u :: 0 <= u < |a| && u != t ==> b[u] == a[u]
    ensures Sum(b) == Sum(a) - a[t] + b[t]
  {
    var n := |a| - 1;
    if t < n {
      SumUpdate(a[..n], b[..n], t);
    } else {
      assert b[..n] == a[..n];
    }
  }

  lemma {:induction false} SumUncountedUpdate(a: seq<Thread>, b: seq<Thread>, t: nat)
    requires t < |a| == |b| && forall u :: 0 <= u < |a| && u != t ==> b[u] == a[u]
    ensures SumUncounted(b) == SumUncounted(a) - Uncounted(a[t].pc) + Uncounted(b[t].pc)
  {
    var n := |a| - 1;
    if t < n {
      SumUncountedUpdate(a[..n], b[..n], t);
    } else {
      assert b[..n] == a[..n];
    }
  }

  lemma {:induction false} SumZero(a: seq<int>)
    requires forall u :: 0 <= u < |a| ==> a[u] == 0
    ensures Sum(a) == 0
  {
    if a != [] {
      SumZero(a[..|a| - 1]);
    }
  }

  lemma {:induction false} SumUncountedZero(ts: seq<Thread>)
    requires forall u :: 0 <= u < |ts| ==> Uncounted(ts[u].pc) == 0
    ensures SumUncounted(ts) == 0
  {
    if ts != [] {
      SumUncountedZero(ts[..|ts| - 1]);
    }
  }

  // ---- steps ----

  // Only the last step of a critical section counts, and only an effect leaves something to count.
  ghost predicate Counts(s: State, s': State, t: nat) {
    && t < |s.threads| == |s'.threads| == |s.local| && s'.len == s.len
    && var a, b := s.threads[t].pc, s'.threads[t].pc;
       if a.Unlock? then s'.abs == s.abs && s'.local == s.local[t := s.local[t] + Uncounted(a)] && Uncounted(b) == 0
       else
         && s'.local == s.local
         && if a.Swap? || a.Publish? then Uncounted(b) == 0 || s'.threads[t].lin == Some(|s.log|)
            else s'.abs == s.abs && Uncounted(b) == Uncounted(a)
  }

  lemma UnlockCounts(c: Config, s: State, t: nat, ch: Choice, s': State)
    requires Takes(c, s, t, ch, s') && s.threads[t].pc.Unlock?
    ensures Counts(s, s', t)
  {
    hide Inv, Enabled, Counted;
  }

  lemma SwapCounts(c: Config, s: State, t: nat, ch: Choice, s': State)
    requires Takes(c, s, t, ch, s') && (s.threads[t].pc.Swap? || s.threads[t].pc.Publish?)
    ensures Counts(s, s', t)
  {
    hide Inv, Enabled, Step, Counted;
    if s.threads[t].pc.Swap? { SwapIs(c, s, t, ch, s'); } else { PublishIs(c, s, t, ch, s'); }
  }

  lemma BuryCounts(c: Config, s: State, t: nat, ch: Choice, s': State)
    requires Takes(c, s, t, ch, s') && s.threads[t].pc.Bury?
    ensures Counts(s, s', t)
  {
    hide Inv, Enabled, Step, Shared, LinInv, ProbeInv;
    Own(c, s, t, ch, s');
    BuryIs(c, s, t, ch, s');
  }

  lemma WithValueCounts(op: Op, g: nat, d: nat, loc: Option<nat>, x: nat, v: Value)
    ensures Uncounted(WithValue(op, g, d, loc, x, v)) == 0
  {
  }

  lemma LoadCounts(c: Config, s: State, t: nat, ch: Choice, s': State)
    requires Takes(c, s, t, ch, s') && s.threads[t].pc.Load?
    ensures Counts(s, s', t)
  {
    hide Inv, Enabled, Step;
    LoadIs(c, s, t, ch, s');
  }

  lemma CompareCounts(c: Config, s: State, t: nat, ch: Choice, s': State)
    requires Takes(c, s, t, ch, s') && s.threads[t].pc.Compare?
    ensures Counts(s, s', t)
  {
    hide Inv, Enabled, Step, WithValue;
    CompareIs(c, s, t, ch, s');
    var pc := s.threads[t].pc;
    WithValueCounts(pc.op, pc.g, pc.distance, pc.loc, pc.x, pc.v);
  }

  lemma ReloadCounts(c: Config, s: State, t: nat, ch: Choice, s': State)
    requires Takes(c, s, t, ch, s') && s.threads[t].pc.Reload?
    ensures Counts(s, s', t)
  {
    hide Inv, Enabled, Step, WithValue;
    ReloadIs(c, s, t, ch, s');
    var pc := s.threads[t].pc;
    if pc.x in s.entries && s.entries[pc.x].value.Some? {
      WithValueCounts(pc.op, pc.g, pc.distance, pc.loc, pc.x, s.entries[pc.x].value.value);
    }
  }

  lemma ProbeNextCounts(c: Config, log: nat, op: Op, g: nat, d: nat, loc: Option<nat>, slot: Slot)
    requires LogSize(log)
    ensures Uncounted(ProbeNext(c, log, op, g, d, loc, slot)) == 0
  {
  }

  lemma ProbeCounts(c: Config, s: State, t: nat, ch: Choice, s': State)
    requires Takes(c, s, t, ch, s') && s.threads[t].pc.Probe?
    ensures Counts(s, s', t)
  {
    hide Inv, Enabled, Step, ProbeNext;
    ProbeIs(c, s, t, ch, s');
    var pc := s.threads[t].pc;
    if pc.distance < |s.metas[pc.g].index| {
      ProbeNextCounts(c, s.metas[pc.g].log, pc.op, pc.g, pc.distance, pc.loc,
          s.metas[pc.g].index[SlotNo(c, s, pc.op.key, pc.g, pc.distance)]);
    }
  }

  lemma LeadCounts(c: Config, s: State, t: nat, ch: Choice, s': State)
    requires Takes(c, s, t, ch, s') && s.threads[t].pc.Lead?
    ensures Counts(s, s', t)
  {
    hide Inv, Enabled, Step;
    LeadIs(c, s, t, ch, s');
  }

  lemma ReleaseCounts(c: Config, s: State, t: nat, ch: Choice, s': State)
    requires Takes(c, s, t, ch, s') && s.threads[t].pc.Release?
    ensures Counts(s, s', t)
  {
    hide Inv, Enabled, Step;
    ReleaseIs(c, s, t, ch, s');
  }

  lemma EnterCounts(c: Config, s: State, t: nat, ch: Choice, s': State)
    requires Takes(c, s, t, ch, s')
    requires var pc := s.threads[t].pc;
             pc.TryLock? || pc.HelpCheck? || pc.Block? || pc.Check? || pc.Drop? || pc.Reserve?
    ensures Counts(s, s', t)
  {
    hide Inv, Enabled;
  }

  lemma OutsideCounts(c: Config, s: State, t: nat, ch: Choice, s': State)
    requires Takes(c, s, t, ch, s')
    requires var pc := s.threads[t].pc;
             pc.Idle? || pc.Fetch? || pc.Return? || pc.GrowFetch? || pc.Elect? || pc.Follow? || pc.Migrating?
    ensures Counts(s, s', t)
  {
    hide Inv, Enabled;
  }

  lemma StepCounts(c: Config, s: State, t: nat, ch: Choice, s': State)
    requires t < |s.threads| && Takes(c, s, t, ch, s')
    ensures Counts(s, s', t)
  {
    hide Takes, Counts;
    match s.threads[t].pc {
      case Unlock(_, _, _) => UnlockCounts(c, s, t, ch, s');
      case Swap(_, _, _, _, _, _) => SwapCounts(c, s, t, ch, s');
      case Publish(_, _, _, _) => SwapCounts(c, s, t, ch, s');
      case Bury(_, _, _, _) => BuryCounts(c, s, t, ch, s');
      case Load(_, _, _, _, _) => LoadCounts(c, s, t, ch, s');
      case Compare(_, _, _, _, _, _) => CompareCounts(c, s, t, ch, s');
      case Reload(_, _, _, _, _) => ReloadCounts(c, s, t, ch, s');
      case Probe(_, _, _, _) => ProbeCounts(c, s, t, ch, s');
      case Lead(_, _, _) => LeadCounts(c, s, t, ch, s');
      case Release(_, _) => ReleaseCounts(c, s, t, ch, s');
      case Idle => OutsideCounts(c, s, t, ch, s');
      case Fetch(_) => OutsideCounts(c, s, t, ch, s');
      case Return(_, _) => OutsideCounts(c, s, t, ch, s');
      case GrowFetch(_) => OutsideCounts(c, s, t, ch, s');
      case Elect(_, _) => OutsideCounts(c, s, t, ch, s');
      case Follow(_, _) => OutsideCounts(c, s, t, ch, s');
      case Migrating(_, _) => OutsideCounts(c, s, t, ch, s');
      case _ => EnterCounts(c, s, t, ch, s');
    }
  }

  // What an effect leaves to count is how much it made the map grow.
  lemma EffectCounts(c: Config, s: State, t: nat, op: Op, s': State)
    requires Advances(s, s', t, op) && Counts(s, s', t) && s'.log == s.log + [s'.abs] && s.log != []
    requires s.log[|s.log| - 1] == s.abs
    requires (s.threads[t].pc.Swap? || s.threads[t].pc.Publish?) && LinInv(s, t) && LinInv(s', t)
    ensures |s'.abs| == |s.abs| + Uncounted(s'.threads[t].pc)
  {
    hide Atomically;
    var a, b := s.threads[t], s'.threads[t];
    if s'.abs != s.abs || b.lin != a.lin {
      CountedIsGrowth(b.pc.op, s.abs);
      BuriedGrowth(b.pc.op, s.abs);
    }
  }

  lemma BuriedGrowth(op: Op, m: map<Key, Value>)
    ensures Atomically(op, m).result.Deleted? ==> Counted(op, Deleted) == -1
  {
  }

  ghost predicate Balanced(s: State) {
    |s.abs| == s.len + Sum(s.local) + SumUncounted(s.threads)
  }

  lemma SharedLog(c: Config, s: State)
    requires Shared(c, s)
    ensures s.log != [] && s.log[|s.log| - 1] == s.abs
  {
  }

  lemma StepBalanced(c: Config, s: State, t: nat, ch: Choice, s': State)
    requires t < |s.threads| && Takes(c, s, t, ch, s') && Evolves(s, s', t) && Inv(c, s') && Balanced(s)
    ensures Balanced(s') && s'.len == s.len
  {
    hide Inv, Shared, Takes, Advances, EntriesEvolve, MetasEvolve, Uncounted, LinInv, LockInv, ProbeInv;
    StepCounts(c, s, t, ch, s');
    SumUpdate(s.local, s'.local, t);
    SumUncountedUpdate(s.threads, s'.threads, t);
    if s.threads[t].pc.Swap? || s.threads[t].pc.Publish? {
      Own(c, s, t, ch, s');
      SharedLog(c, s);
      StepAdvances(c, s, t, ch, s');
      assert Local(c, s', t) by { LocalOf(c, s', t); }
      EffectCounts(c, s, t, ch.op, s');
      NothingYet(s.threads[t].pc);
    }
  }

  lemma LocalOf(c: Config, s: State, t: nat)
    requires Inv(c, s) && t < |s.threads|
    ensures Local(c, s, t)
  {
  }

  lemma NothingYet(pc: Pc)
    requires pc.Swap? || pc.Publish?
    ensures Uncounted(pc) == 0
  {
  }

  lemma InitBalanced(c: Config, s: State)
    requires Init(c, s)
    ensures Balanced(s) && s.len == |s.abs|
  {
    SumZero(s.local);
    SumUncountedZero(s.threads);
  }

  // In every reachable state self->len and the local counters miss exactly what is under way.
  lemma {:induction false} LengthInRuns(c: Config, run: seq<State>, i: nat)
    requires GoodConfig(c) && Run(c, run) && i < |run|
    ensures |run[i].abs| == run[i].len + Sum(run[i].local) + SumUncounted(run[i].threads)
    ensures run[i].len == |run[0].abs|
  {
    hide Run, Inv, Takes, Evolves, Init;
    RunInv(c, run, i);
    if i == 0 {
      StartsFrom(c, run);
      InitBalanced(c, run[0]);
    } else {
      LengthInRuns(c, run, i - 1);
      var t: nat, ch :| t < |run[i - 1].threads| && Takes(c, run[i - 1], t, ch, run[i])
          && Evolves(run[i - 1], run[i], t);
      StepBalanced(c, run[i - 1], t, ch, run[i]);
    }
  }

  lemma StartsFrom(c: Config, run: seq<State>)
    requires Run(c, run)
    ensures Init(c, run[0])
  {
    hide Init;
  }

  // So when no operation is between its effect and its last step, they add up to the number of keys.
  lemma LengthWhenQuiet(c: Config, run: seq<State>, i: nat)
    requires GoodConfig(c) && Run(c, run) && i < |run|
    requires forall t :: 0 <= t < |run[i].threads| ==> !run[i].threads[t].pc.Bury? && !run[i].threads[t].pc.Unlock?
    ensures |run[i].abs| == run[i].len + Sum(run[i].local)
  {
    hide Run;
    LengthInRuns(c, run, i);
    SumUncountedZero(run[i].threads);
  }
}
