// The locks and events around a resize, with len() and late registrations (resize.c, accessor_storage.c,
// AtomicDict_Len in atomic_dict.c). The migration itself is module ConcurrentMigration, which
// ResizeMigration puts into the working phase; here a participant just works for some steps. An operation takes
// effect in one step, which JointLinearizability.JointLinearizableIff justifies, for every dict but those whose
// initial items share their first buffer.
module ResizeProtocol {
  import opened Options
  import opened MapSpec

  // One generation: resize_leader, participants, and the events new_metadata_ready, node_migration_done
  // and resize_done. The last generation is the published one.
  datatype Gen = Gen(leader: Option<nat>, parts: Option<seq<nat>>, ready: bool, migrated: bool, finished: bool)

  // An AtomicDictAccessorStorage: its thread, its self_mutex and its local_len.
  datatype Accessor = Accessor(owner: nat, mutex: Option<nat>, local: int)

  datatype Join = Enlist | Link | Linked                 // take accessors_lock, append the storage, release

  datatype Write =
    | Fetch
    | TryLock(g: nat)
    | HelpCheck(g: nat)
    | Block(g: nat)
    | Check(g: nat)
    | Drop(g: nat)
    | Section(g: nat)                                    // an operation takes effect
    | CountLoad(g: nat, inc: int)                        // accessor_len_inc
    | CountStore(g: nat, inc: int, current: int)
    | CountDirty(g: nat)
    | Leave(g: nat)

  datatype Grow =
    | GrowFetch
    | Elect(g: nat)
    | AwaitReady(g: nat)
    | AwaitFinished(g: nat)

  // common_resize
  datatype Phase = Outside | Entering | Working | Leaving | Scanning(next: nat) | Setting | Waiting

  // begin_synchronous_operation and end_synchronous_operation, by a leader or by len()
  datatype Who = Leader(g: nat) | Counter
  datatype Sync =
    | LockSync
    | LockList
    | LockAccessor(k: nat)
    | UnlockSync(answer: int)
    | UnlockAccessor(answer: int, k: nat)
    | UnlockList(answer: int)

  datatype Lead = Prepare | SetReady | Publish | SetFinished

  datatype Count =
    | ReadLen
    | Sum(k: nat, total: int)
    | StoreLen(total: int)
    | ClearDirty(total: int)
    | ClearLocal(total: int, k: nat)

  datatype Pc =
    | Idle
    | Joining(join: Join)
    | Writing(write: Write)
    | Growing(grow: Grow)
    | Common(leads: bool, g: nat, phase: Phase)
    | Syncing(who: Who, sync: Sync)
    | Leading(g: nat, lead: Lead)
    | Counting(count: Count)

  datatype Thread = Thread(pc: Pc, ix: Option<nat>)

  // `abs` is the map that the dict stands for.
  datatype State = State(
    gens: seq<Gen>, sync: Option<nat>, list: Option<nat>, accessors: seq<Accessor>,
    len: int, dirty: bool, threads: seq<Thread>, abs: map<Key, Value>)

  // ---- steps ----

  function Goto(s: State, t: nat, pc: Pc): State
    requires t < |s.threads|
  {
    s.(threads := s.threads[t := s.threads[t].(pc := pc)])
  }

  function Lock(s: State, i: nat, v: Option<nat>): State
    requires i < |s.accessors|
  {
    s.(accessors := s.accessors[i := s.accessors[i].(mutex := v)])
  }

  function Local(s: State, i: nat, n: int): State
    requires i < |s.accessors|
  {
    s.(accessors := s.accessors[i := s.accessors[i].(local := n)])
  }

  function WithGen(s: State, g: nat, gen: Gen): State
    requires g < |s.gens|
  {
    s.(gens := s.gens[g := gen])
  }

  function Newest(s: State): nat { if s.gens == [] then 0 else |s.gens| - 1 }

  // What the environment chooses: the call, the operation that takes effect, whether to go on.
  datatype Choice = Choice(count: bool, op: Op, again: bool)

  function StartStep(s: State, t: nat, ch: Choice): State
    requires t < |s.threads|
  {
    Goto(s, t, if ch.count then Syncing(Counter, LockSync)
               else if s.threads[t].ix.None? then Joining(Enlist) else Writing(Fetch))
  }

  function JoinStep(s: State, t: nat, j: Join): State
    requires t < |s.threads|
  {
    match j
    case Enlist => Goto(s.(list := Some(t)), t, Joining(Link))
    case Link =>
      s.(accessors := s.accessors + [Accessor(t, None, 0)],
         threads := s.threads[t := Thread(Joining(Linked), Some(|s.accessors|))])
    case Linked => Goto(s.(list := None), t, Writing(Fetch))
  }

  function WriteStep(s: State, t: nat, i: nat, w: Write, ch: Choice): State
    requires t < |s.threads| && i < |s.accessors| && (!w.Fetch? ==> w.g < |s.gens|)
  {
    match w
    case Fetch => Goto(s, t, Writing(TryLock(Newest(s))))
    case TryLock(g) =>
      if s.accessors[i].mutex.None? then Goto(Lock(s, i, Some(t)), t, Writing(Check(g)))
      else Goto(s, t, Writing(HelpCheck(g)))
    case HelpCheck(g) => Goto(s, t, if s.gens[g].leader.Some? then Growing(AwaitReady(g)) else Writing(Block(g)))
    case Block(g) => Goto(Lock(s, i, Some(t)), t, Writing(Check(g)))
    case Check(g) => Goto(s, t, Writing(if s.gens[g].leader.Some? then Drop(g) else Section(g)))
    case Drop(g) => Goto(Lock(s, i, None), t, Growing(AwaitReady(g)))
    case Section(g) =>
      var o := Atomically(ch.op, s.abs);
      var inc := Counted(ch.op, o.result);
      Goto(s.(abs := o.after), t, Writing(if inc == 0 then Leave(g) else CountLoad(g, inc)))
    case CountLoad(g, inc) => Goto(s, t, Writing(CountStore(g, inc, s.accessors[i].local)))
    case CountStore(g, inc, current) => Goto(Local(s, i, current + inc), t, Writing(CountDirty(g)))
    case CountDirty(g) => Goto(s.(dirty := true), t, Writing(Leave(g)))
    case Leave(g) => Goto(Lock(s, i, None), t, if ch.again then Growing(GrowFetch) else Idle)
  }

  function GrowStep(s: State, t: nat, gr: Grow, ch: Choice): State
    requires t < |s.threads| && (!gr.GrowFetch? ==> gr.g < |s.gens|)
  {
    match gr
    case GrowFetch => Goto(s, t, Growing(Elect(Newest(s))))
    case Elect(g) =>
      if s.gens[g].leader.None? then Goto(WithGen(s, g, s.gens[g].(leader := Some(t))), t, Syncing(Leader(g), LockSync))
      else Goto(s, t, Growing(AwaitReady(g)))
    case AwaitReady(g) => Goto(s, t, Common(false, g, Outside))
    case AwaitFinished(g) => Goto(s, t, if ch.again then Writing(Fetch) else Idle)
  }

  function SetPart(gen: Gen, i: nat, v: nat): Gen
    requires gen.parts.Some? && i < |gen.parts.value|
  {
    gen.(parts := Some(gen.parts.value[i := v]))
  }

  function CommonStep(s: State, t: nat, i: nat, leads: bool, g: nat, ph: Phase, ch: Choice): State
    requires t < |s.threads| && g < |s.gens| && s.gens[g].parts.Some? && i < |s.gens[g].parts.value|
  {
    var gen := s.gens[g];
    var out := if leads then Leading(g, Publish) else Growing(AwaitFinished(g));
    match ph
    case Outside => Goto(s, t, if gen.migrated then out else Common(leads, g, Entering))
    case Entering => Goto(WithGen(s, g, SetPart(gen, i, 1)), t, Common(leads, g, Working))
    case Working => Goto(s, t, Common(leads, g, if ch.again then Working else Leaving))
    case Leaving => Goto(WithGen(s, g, SetPart(gen, i, 2)), t, Common(leads, g, Scanning(0)))
    case Scanning(k) =>
      Goto(s, t, Common(leads, g, if k >= |gen.parts.value| then Setting
                                  else if gen.parts.value[k] == 1 then Waiting else Scanning(k + 1)))
    case Setting => Goto(WithGen(s, g, gen.(migrated := true)), t, Common(leads, g, Waiting))
    case Waiting => Goto(s, t, out)
  }

  function SyncStep(s: State, t: nat, who: Who, y: Sync, ch: Choice): State
    requires t < |s.threads|
  {
    match y
    case LockSync => Goto(s.(sync := Some(t)), t, Syncing(who, LockList))
    case LockList => Goto(s.(list := Some(t)), t, Syncing(who, LockAccessor(0)))
    case LockAccessor(k) =>
      if k < |s.accessors| then Goto(Lock(s, k, Some(t)), t, Syncing(who, LockAccessor(k + 1)))
      else Goto(s, t, if who.Leader? then Leading(who.g, Prepare) else Counting(ReadLen))
    case UnlockSync(a) => Goto(s.(sync := None), t, Syncing(who, UnlockAccessor(a, 0)))
    case UnlockAccessor(a, k) =>
      if k < |s.accessors| then Goto(Lock(s, k, None), t, Syncing(who, UnlockAccessor(a, k + 1)))
      else Goto(s, t, Syncing(who, UnlockList(a)))
    case UnlockList(_) => Goto(s.(list := None), t, if who.Leader? && ch.again then Writing(Fetch) else Idle)
  }

  function LeadStep(s: State, t: nat, g: nat, l: Lead): State
    requires t < |s.threads| && g < |s.gens|
  {
    var gen := s.gens[g];
    match l
    case Prepare => Goto(WithGen(s, g, gen.(parts := Some(seq(|s.accessors|, _ => 0)))), t, Leading(g, SetReady))
    case SetReady => Goto(WithGen(s, g, gen.(ready := true)), t, Common(true, g, Outside))
    case Publish =>
      // the CAS on the dict's metadata
      var s' := if g == Newest(s) then s.(gens := s.gens + [Gen(None, None, false, false, false)]) else s;
      Goto(s', t, Leading(g, SetFinished))
    case SetFinished => Goto(WithGen(s, g, gen.(finished := true)), t, Syncing(Leader(g), UnlockSync(0)))
  }

  function CountStep(s: State, t: nat, c: Count): State
    requires t < |s.threads|
  {
    match c
    case ReadLen => Goto(s, t, if s.dirty then Counting(Sum(0, s.len)) else Syncing(Counter, UnlockSync(s.len)))
    case Sum(k, total) =>
      Goto(s, t, Counting(if k < |s.accessors| then Sum(k + 1, total + s.accessors[k].local) else StoreLen(total)))
    case StoreLen(total) => Goto(s.(len := total), t, Counting(ClearDirty(total)))
    case ClearDirty(total) => Goto(s.(dirty := false), t, Counting(ClearLocal(total, 0)))
    case ClearLocal(total, k) =>
      if k < |s.accessors| then Goto(Local(s, k, 0), t, Counting(ClearLocal(total, k + 1)))
      else Goto(s, t, Syncing(Counter, UnlockSync(total)))
  }

  // The thread's accessor and generation exist.
  predicate InRange(s: State, t: nat) {
    && t < |s.threads| && s.gens != []
    && var th := s.threads[t];
       match th.pc
       case Writing(w) => th.ix.Some? && th.ix.value < |s.accessors| && (!w.Fetch? ==> w.g < |s.gens|)
       case Growing(gr) => !gr.GrowFetch? ==> gr.g < |s.gens|
       case Common(_, g, _) =>
         && th.ix.Some? && th.ix.value < |s.accessors| && g < |s.gens|
         && s.gens[g].parts.Some? && th.ix.value < |s.gens[g].parts.value|
       case Leading(g, _) => g < |s.gens|
       case _ => true
  }

  // The steps that wait: for a lock or for an event.
  predicate Enabled(s: State, t: nat)
    requires InRange(s, t)
  {
    var th := s.threads[t];
    match th.pc
    case Joining(Enlist) => s.list.None?
    case Writing(Block(_)) => s.accessors[th.ix.value].mutex.None?
    case Growing(AwaitReady(g)) => s.gens[g].ready
    case Growing(AwaitFinished(g)) => s.gens[g].finished
    case Common(_, g, Waiting) => s.gens[g].migrated
    case Syncing(_, LockSync) => s.sync.None?
    case Syncing(_, LockList) => s.list.None?
    case Syncing(_, LockAccessor(k)) => k < |s.accessors| ==> s.accessors[k].mutex.None?
    case _ => true
  }

  function Step(s: State, t: nat, ch: Choice): State
    requires InRange(s, t)
  {
    match s.threads[t].pc
    case Idle => StartStep(s, t, ch)
    case Joining(j) => JoinStep(s, t, j)
    case Writing(w) => WriteStep(s, t, s.threads[t].ix.value, w, ch)
    case Growing(gr) => GrowStep(s, t, gr, ch)
    case Common(leads, g, ph) => CommonStep(s, t, s.threads[t].ix.value, leads, g, ph, ch)
    case Syncing(who, y) => SyncStep(s, t, who, y, ch)
    case Leading(g, l) => LeadStep(s, t, g, l)
    case Counting(c) => CountStep(s, t, c)
  }

  predicate Init(s: State) {
    && s.gens == [Gen(None, None, false, false, false)] && s.sync.None? && s.list.None? && s.accessors == []
    && s.len == |s.abs| && !s.dirty
    && forall t :: 0 <= t < |s.threads| ==> s.threads[t] == Thread(Idle, None)
  }

  ghost predicate Next(s: State, s': State) {
    exists t: nat, ch :: InRange(s, t) && Enabled(s, t) && s' == Step(s, t, ch)
  }

  ghost predicate Run(run: seq<State>) {
    run != [] && Init(run[0]) && forall i :: 0 <= i < |run| - 1 ==> Next(run[i], run[i + 1])
  }
}
