// What a completed compare-and-set, delete or get has done, in terms of the map alone: what an update stores and
// what it answers, and that a later get reads it.
module Updates {
  import opened Options
  import opened MapSpec
  import opened NodeCodec
  import opened ProbeIndex
  import opened DictMachine
  import opened DictInvariant
  import opened StepInvariant
  import opened Linearizability

  // ---- a result that reports a change has its moment ----

  function ResultOfCont(cont: Cont): Option<Result> {
    match cont
    case Again(_) => None
    case Done(_, r) => Some(r)
  }

  // The answer that a thread is about to give.
  function ResultOf(pc: Pc): Option<Result> {
    match pc
    case Unlock(_, _, r) => Some(r)
    case Return(_, r) => Some(r)
    case Bury(_, _, _, _) => Some(Deleted)
    case Drop(cont, _, _) => ResultOfCont(cont)
    case GrowFetch(cont) => ResultOfCont(cont)
    case Elect(cont, _) => ResultOfCont(cont)
    case Follow(cont, _) => ResultOfCont(cont)
    case Lead(cont, _, _) => ResultOfCont(cont)
    case Migrating(cont, _) => ResultOfCont(cont)
    case Release(cont, _) => ResultOfCont(cont)
    case _ => None
  }

  // The operation reports that it has changed the map.
  predicate Changed(op: Op, r: Result) {
    match op
    case Get(_) => false
    case CompareAndSet(_, _, _) => !r.ExpectationFailed?
    case Delete(_) => r.Deleted?
  }

  predicate Claims(pc: Pc) {
    OpOf(pc).Some? && ResultOf(pc).Some? && Changed(OpOf(pc).value, ResultOf(pc).value)
  }

  // A step makes a thread claim a change only with its effect.
  ghost predicate ClaimsLater(s: State, s': State, t: nat) {
    && t < |s.threads| == |s'.threads|
    && (Claims(s'.threads[t].pc) ==> s'.threads[t].lin.Some? || Claims(s.threads[t].pc))
  }

  lemma ProbeNextClaims(c: Config, log: nat, op: Op, g: nat, d: nat, loc: Option<nat>, slot: Slot)
    requires LogSize(log)
    ensures !Claims(ProbeNext(c, log, op, g, d, loc, slot))
    ensures !Claims(Finish(op, g, AbsentResult(op)))
  {
  }

  lemma ProbeClaims(c: Config, s: State, t: nat, ch: Choice, s': State)
    requires Takes(c, s, t, ch, s') && s.threads[t].pc.Probe?
    ensures ClaimsLater(s, s', t)
  {
    hide Inv, Enabled, Step, ProbeNext, Finish, Claims;
    ProbeIs(c, s, t, ch, s');
    var pc := s.threads[t].pc;
    var slot := s.metas[pc.g].index[SlotNo(c, s, pc.op.key, pc.g, pc.distance)];
    ProbeNextClaims(c, s.metas[pc.g].log, pc.op, pc.g, pc.distance, pc.loc, slot);
    DropClaims(pc.op, pc.g);
  }

  lemma DropClaims(op: Op, g: nat)
    ensures !Claims(Drop(Again(op), g, true))
  {
  }

  lemma WithValueClaims(op: Op, g: nat, d: nat, loc: Option<nat>, x: nat, v: Value)
    ensures !Claims(WithValue(op, g, d, loc, x, v)) && !Claims(Unlock(op, g, AbsentResult(op)))
    ensures !Claims(Probe(op, g, d + 1, loc)) && !Claims(Compare(op, g, d, loc, x, v))
    ensures !Claims(Reload(op, g, d, loc, x))
  {
  }

  lemma LookClaims(c: Config, s: State, t: nat, ch: Choice, s': State)
    requires Takes(c, s, t, ch, s') && (s.threads[t].pc.Load? || s.threads[t].pc.Compare?)
    ensures ClaimsLater(s, s', t)
  {
    hide Inv, Enabled, Step, WithValue, Claims;
    var pc := s.threads[t].pc;
    if pc.Compare? {
      CompareIs(c, s, t, ch, s');
      WithValueClaims(pc.op, pc.g, pc.distance, pc.loc, pc.x, pc.v);
    } else {
      LoadIs(c, s, t, ch, s');
      forall v
        ensures !Claims(Compare(pc.op, pc.g, pc.distance, pc.loc, pc.x, v))
        ensures !Claims(Probe(pc.op, pc.g, pc.distance + 1, pc.loc))
      {
        WithValueClaims(pc.op, pc.g, pc.distance, pc.loc, pc.x, v);
      }
      LoadPassesOn(pc.op, pc.g, pc.distance, pc.loc);
    }
  }

  lemma LoadPassesOn(op: Op, g: nat, d: nat, loc: Option<nat>)
    ensures !Claims(Probe(op, g, d + 1, loc))
  {
  }

  lemma ReloadClaims(c: Config, s: State, t: nat, ch: Choice, s': State)
    requires Takes(c, s, t, ch, s') && s.threads[t].pc.Reload?
    ensures ClaimsLater(s, s', t)
  {
    hide Inv, Enabled, Step, WithValue, Claims, AbsentResult;
    ReloadIs(c, s, t, ch, s');
    var pc := s.threads[t].pc;
    LoadPassesOn(pc.op, pc.g, pc.distance, pc.loc);
    AbsentClaims(pc.op, pc.g);
    if pc.x in s.entries && s.entries[pc.x].value.Some? {
      WithValueClaims(pc.op, pc.g, pc.distance, pc.loc, pc.x, s.entries[pc.x].value.value);
    }
  }

  lemma AbsentClaims(op: Op, g: nat)
    ensures !Claims(Unlock(op, g, AbsentResult(op)))
  {
  }

  lemma SwapClaims(c: Config, s: State, t: nat, ch: Choice, s': State)
    requires Takes(c, s, t, ch, s') && (s.threads[t].pc.Swap? || s.threads[t].pc.Publish?)
    ensures ClaimsLater(s, s', t)
  {
    hide Inv, Enabled, Step;
    if s.threads[t].pc.Swap? { SwapIs(c, s, t, ch, s'); } else { PublishIs(c, s, t, ch, s'); }
  }

  lemma BuryClaims(c: Config, s: State, t: nat, ch: Choice, s': State)
    requires Takes(c, s, t, ch, s') && s.threads[t].pc.Bury?
    ensures ClaimsLater(s, s', t)
  {
    hide Inv, Enabled, Step;
    BuryIs(c, s, t, ch, s');
  }

  lemma LeadClaims(c: Config, s: State, t: nat, ch: Choice, s': State)
    requires Takes(c, s, t, ch, s') && (s.threads[t].pc.Lead? || s.threads[t].pc.Release?)
    ensures ClaimsLater(s, s', t)
  {
    hide Inv, Enabled, Step;
    if s.threads[t].pc.Lead? { LeadIs(c, s, t, ch, s'); } else { ReleaseIs(c, s, t, ch, s'); }
  }

  lemma GoesClaims(s: State, s': State, t: nat)
    requires GoesOn(s, s', t)
    ensures ClaimsLater(s, s', t)
  {
  }

  lemma WaitClaims(c: Config, s: State, t: nat, ch: Choice, s': State)
    requires Takes(c, s, t, ch, s') && (Locks(s.threads[t].pc) || Waits(s.threads[t].pc))
    ensures ClaimsLater(s, s', t)
  {
    hide Inv, Step, Enabled, ClaimsLater, GoesOn;
    if Locks(s.threads[t].pc) { LocksGo(c, s, t, ch, s'); } else { WaitsGo(c, s, t, ch, s'); }
    GoesClaims(s, s', t);
  }

  lemma EnterClaims(c: Config, s: State, t: nat, ch: Choice, s': State)
    requires Takes(c, s, t, ch, s')
    requires var pc := s.threads[t].pc; pc.Idle? || pc.Fetch? || pc.Check? || pc.Reserve?
    ensures ClaimsLater(s, s', t)
  {
    hide Inv, Enabled;
  }

  lemma GrowClaims(c: Config, s: State, t: nat, ch: Choice, s': State)
    requires Takes(c, s, t, ch, s') && (s.threads[t].pc.Elect? || s.threads[t].pc.Migrating?)
    ensures ClaimsLater(s, s', t)
  {
    hide Inv, Enabled;
  }

  lemma StepClaims(c: Config, s: State, t: nat, ch: Choice, s': State)
    requires t < |s.threads| && Takes(c, s, t, ch, s')
    ensures ClaimsLater(s, s', t)
  {
    hide Takes, ClaimsLater;
    match s.threads[t].pc {
      case Probe(_, _, _, _) => ProbeClaims(c, s, t, ch, s');
      case Load(_, _, _, _, _) => LookClaims(c, s, t, ch, s');
      case Compare(_, _, _, _, _, _) => LookClaims(c, s, t, ch, s');
      case Reload(_, _, _, _, _) => ReloadClaims(c, s, t, ch, s');
      case Swap(_, _, _, _, _, _) => SwapClaims(c, s, t, ch, s');
      case Publish(_, _, _, _) => SwapClaims(c, s, t, ch, s');
      case Bury(_, _, _, _) => BuryClaims(c, s, t, ch, s');
      case Lead(_, _, _) => LeadClaims(c, s, t, ch, s');
      case Release(_, _) => LeadClaims(c, s, t, ch, s');
      case Elect(_, _) => GrowClaims(c, s, t, ch, s');
      case Migrating(_, _) => GrowClaims(c, s, t, ch, s');
      case Idle => EnterClaims(c, s, t, ch, s');
      case Fetch(_) => EnterClaims(c, s, t, ch, s');
      case Check(_, _) => EnterClaims(c, s, t, ch, s');
      case Reserve(_, _) => EnterClaims(c, s, t, ch, s');
      case _ => WaitClaims(c, s, t, ch, s');
    }
  }

  // Whoever claims a change has made it.
  lemma {:induction false} ClaimHasMoment(c: Config, run: seq<State>, i: nat, t: nat)
    requires GoodConfig(c) && Run(c, run) && i < |run| && t < |run[i].threads|
    ensures Claims(run[i].threads[t].pc) ==> run[i].threads[t].lin.Some?
  {
    hide Inv, Takes, Evolves, Run, Advances;
    RunInv(c, run, i);
    if i == 0 {
      StartsIdle(c, run, t);
    } else {
      var u: nat, ch :| u < |run[i - 1].threads| && Takes(c, run[i - 1], u, ch, run[i])
          && Evolves(run[i - 1], run[i], u);
      LogGrows(c, run[i - 1], run[i]);
      ClaimHasMoment(c, run, i - 1, t);
      StepClaims(c, run[i - 1], u, ch, run[i]);
      StepAdvances(c, run[i - 1], u, ch, run[i]);
      ClaimKept(run[i - 1], run[i], t, u, ch.op);
    }
  }

  lemma ClaimKept(s: State, s': State, t: nat, u: nat, op: Op)
    requires t < |s.threads| == |s'.threads| && u < |s.threads| && Evolves(s, s', u) && Advances(s, s', u, op)
    requires ClaimsLater(s, s', u) && (Claims(s.threads[t].pc) ==> s.threads[t].lin.Some?)
    ensures Claims(s'.threads[t].pc) ==> s'.threads[t].lin.Some?
  {
    hide EntriesEvolve, MetasEvolve, MapEvolves;
  }

  // ---- what the operations mean ----

  // A compare-and-set that succeeded has stored its value, at its own moment m. It answers the value that it
  // replaced, or that there was none, and what it replaced is what it expected.
  lemma CompareAndSetStores(c: Config, run: seq<State>, i: nat, t: nat, k: Key, e: Expected, d: Value, r: Result)
    returns (m: nat)
    requires GoodConfig(c) && Run(c, run) && i < |run| && t < |run[i].threads|
    requires run[i].threads[t].pc == Return(CompareAndSet(k, e, d), r) && r != ExpectationFailed
    ensures run[i].threads[t].start < m <= i && EffectAt(run, m, t, CompareAndSet(k, e, d))
    ensures run[m].abs == run[m - 1].abs[k := d]
    ensures k in run[m - 1].abs ==> r == Returned(run[m - 1].abs[k])
    ensures k !in run[m - 1].abs ==> r == WasNotFound
    ensures e.Exactly? ==> k in run[m - 1].abs && run[m - 1].abs[k] == e.v
    ensures e.NotFound? ==> k !in run[m - 1].abs
  {
    hide Run, Calling, EffectAt;
    Linearizable(c, run, i, t, CompareAndSet(k, e, d), r);
    ClaimHasMoment(c, run, i, t);
    m := run[i].threads[t].lin.value;
    assert Atomically(CompareAndSet(k, e, d), run[m - 1].abs) == Outcome(r, run[m].abs);
  }

  // One that failed met something else than it expected, at a moment of the call; ANY never fails.
  lemma CompareAndSetFails(c: Config, run: seq<State>, i: nat, t: nat, k: Key, e: Expected, d: Value) returns (m: nat)
    requires GoodConfig(c) && Run(c, run) && i < |run| && t < |run[i].threads|
    requires run[i].threads[t].pc == Return(CompareAndSet(k, e, d), ExpectationFailed)
    ensures run[i].threads[t].start <= m <= i && !e.Any?
    ensures e.Exactly? ==> k !in run[m].abs || run[m].abs[k] != e.v
    ensures e.NotFound? ==> k in run[m].abs
  {
    hide Run, Calling, EffectAt;
    var op := CompareAndSet(k, e, d);
    Linearizable(c, run, i, t, op, ExpectationFailed);
    var th := run[i].threads[t];
    if th.lin.Some? {
      m := th.lin.value - 1;
      assert Atomically(op, run[m].abs) == Outcome(ExpectationFailed, run[m + 1].abs);
    } else {
      m :| th.start <= m <= i && Atomically(op, run[m].abs) == Outcome(ExpectationFailed, run[m].abs);
    }
  }

  // A delete that succeeded has removed its key, at its own moment.
  lemma DeleteRemoves(c: Config, run: seq<State>, i: nat, t: nat, k: Key) returns (m: nat)
    requires GoodConfig(c) && Run(c, run) && i < |run| && t < |run[i].threads|
    requires run[i].threads[t].pc == Return(Delete(k), Deleted)
    ensures run[i].threads[t].start < m <= i && EffectAt(run, m, t, Delete(k))
    ensures k in run[m - 1].abs && run[m].abs == run[m - 1].abs - {k}
  {
    hide Run, Calling, EffectAt;
    Linearizable(c, run, i, t, Delete(k), Deleted);
    ClaimHasMoment(c, run, i, t);
    m := run[i].threads[t].lin.value;
    assert Atomically(Delete(k), run[m - 1].abs) == Outcome(Deleted, run[m].abs);
  }

  // Any other answer of a delete is a KeyError, and the key was absent at a moment of the call.
  lemma DeleteFails(c: Config, run: seq<State>, i: nat, t: nat, k: Key, r: Result) returns (m: nat)
    requires GoodConfig(c) && Run(c, run) && i < |run| && t < |run[i].threads|
    requires run[i].threads[t].pc == Return(Delete(k), r) && r != Deleted
    ensures r == KeyError && run[i].threads[t].start <= m <= i && k !in run[m].abs
  {
    hide Run, Calling, EffectAt;
    Linearizable(c, run, i, t, Delete(k), r);
    var th := run[i].threads[t];
    if th.lin.Some? {
      m := th.lin.value - 1;
      assert Atomically(Delete(k), run[m].abs) == Outcome(r, run[m + 1].abs);
    } else {
      m :| th.start <= m <= i && Atomically(Delete(k), run[m].abs) == Outcome(r, run[m].abs);
    }
  }

  // A get answers what the key held, or that it was absent, at a moment of the call.
  lemma GetReads(c: Config, run: seq<State>, i: nat, t: nat, k: Key, r: Result) returns (m: nat)
    requires GoodConfig(c) && Run(c, run) && i < |run| && t < |run[i].threads|
    requires run[i].threads[t].pc == Return(Get(k), r)
    ensures run[i].threads[t].start <= m <= i
    ensures r == if k in run[m].abs then Returned(run[m].abs[k]) else WasNotFound
  {
    hide Run, Calling, EffectAt;
    Linearizable(c, run, i, t, Get(k), r);
    var th := run[i].threads[t];
    if th.lin.Some? {
      m := th.lin.value - 1;
      assert Atomically(Get(k), run[m].abs) == Outcome(r, run[m + 1].abs);
    } else {
      m :| th.start <= m <= i && Atomically(Get(k), run[m].abs) == Outcome(r, run[m].abs);
    }
  }

  // ---- reading what was written ----

  // No operation on k takes effect after moment m, up to moment j.
  ghost predicate Untouched(run: seq<State>, m: nat, j: nat, k: Key) {
    forall n: nat, u: nat, op :: m < n <= j && EffectAt(run, n, u, op) ==> op.key != k
  }

  lemma OtherKey(op: Op, m: map<Key, Value>, k: Key)
    requires op.key != k
    ensures var a := Atomically(op, m).after; (k in a <==> k in m) && (k in m ==> a[k] == m[k])
  {
  }

  lemma {:induction false} StaysStored(c: Config, run: seq<State>, m: nat, j: nat, k: Key)
    requires GoodConfig(c) && Run(c, run) && m <= j < |run| && Untouched(run, m, j, k)
    ensures k in run[j].abs <==> k in run[m].abs
    ensures k in run[m].abs ==> run[j].abs[k] == run[m].abs[k]
    decreases j
  {
    hide Run;
    if m < j {
      StaysStored(c, run, m, j - 1, k);
      OneEffect(c, run, j);
      if run[j].abs != run[j - 1].abs {
        var u: nat, op :| EffectAt(run, j, u, op);
        OtherKey(op, run[j - 1].abs, k);
      }
    }
  }

  // A get called after a compare-and-set has returned reads what that stored, if nothing else touches the key
  // from the moment of the one to the return of the other.
  lemma ReadsLastWrite(c: Config, run: seq<State>, i: nat, t: nat, k: Key, e: Expected, d: Value, r: Result,
      j: nat, u: nat, r': Result) returns (m: nat)
    requires GoodConfig(c) && Run(c, run) && i < |run| && t < |run[i].threads| && j < |run| && u < |run[j].threads|
    requires run[i].threads[t].pc == Return(CompareAndSet(k, e, d), r) && r != ExpectationFailed
    requires run[j].threads[u].pc == Return(Get(k), r') && i <= run[j].threads[u].start
    ensures run[i].threads[t].start < m <= i && EffectAt(run, m, t, CompareAndSet(k, e, d))
    ensures Untouched(run, m, j, k) ==> r' == Returned(d)
  {
    hide Run, EffectAt, Untouched;
    m := CompareAndSetStores(c, run, i, t, k, e, d, r);
    var n := GetReads(c, run, j, u, k, r');
    if Untouched(run, m, j, k) {
      Earlier(run, m, n, j, k);
      StaysStored(c, run, m, n, k);
    }
  }

  lemma Earlier(run: seq<State>, m: nat, n: nat, j: nat, k: Key)
    requires n <= j && Untouched(run, m, j, k)
    ensures Untouched(run, m, n, k)
  {
  }
}
