// What ResizeProtocol promises: no deadlock, one leader for each generation, writers frozen while it leads,
// and compare-and-set operations that cannot fail.
module ResizeProgress {
  import opened Options
  import opened MapSpec
  import opened ResizeProtocol
  import opened ResizeInvariant
  import opened ResizeSteps

  // A thread in the middle of a call that can take its next step.
  ghost predicate CanStep(s: State, u: nat) {
    InRange(s, u) && !s.threads[u].pc.Idle? && Enabled(s, u)
  }

  ghost predicate SomeoneSteps(s: State) {
    exists u: nat :: CanStep(s, u)
  }

  lemma Ready(s: State, u: nat)
    requires Inv(s) && u < |s.threads| && !s.threads[u].pc.Idle?
    ensures InRange(s, u)
    ensures Enabled(s, u) ==> SomeoneSteps(s)
  {
    hide Inv;
    OkInRange(s, u);
    if Enabled(s, u) {
      assert CanStep(s, u);
    }
  }

  lemma MigrationServed(s: State, v: nat, g: nat)
    requires Inv(s) && g < |s.gens| && Stalls(s, v, g) && !s.gens[g].migrated
    ensures SomeoneSteps(s)
  {
    hide Shared, ThreadOk;
    assert Driven(s, g);
    var u: nat :| Active(s, u, g);
    Ready(s, u);
  }

  lemma LocksOf(s: State, v: nat)
    requires Inv(s) && v < |s.threads|
    ensures LocksOk(s, v) && AccessorOk(s, v)
  {
    assert ThreadOk(s, v);
  }

  lemma LockingAccessorServed(s: State, v: nat, k: nat)
    requires Inv(s) && v < |s.threads| && s.threads[v].pc.Syncing? && s.threads[v].pc.sync == LockAccessor(k)
    ensures SomeoneSteps(s)
  {
    hide Inv;
    Ready(s, v);
    LocksOf(s, v);
    if k < |s.accessors| && s.accessors[k].mutex.Some? {
      var w := s.accessors[k].mutex.value;
      HoldersExist(s, k);
      LocksOf(s, w);
      Ready(s, w);
      assert HoldsAccessor(s.threads[w].pc, s.threads[w].ix, k);
      assert InSection(s.threads[w].pc);
    }
  }

  lemma HoldersExist(s: State, k: nat)
    requires Inv(s)
    ensures s.sync.Some? ==> s.sync.value < |s.threads|
    ensures s.list.Some? ==> s.list.value < |s.threads|
    ensures k < |s.accessors| && s.accessors[k].mutex.Some? ==> s.accessors[k].mutex.value < |s.threads|
  {
  }

  lemma ListHolderServed(s: State, v: nat)
    requires Inv(s) && v < |s.threads| && HoldsList(s.threads[v].pc)
    ensures SomeoneSteps(s)
  {
    hide Inv;
    Ready(s, v);
    var pc := s.threads[v].pc;
    if pc.Syncing? && pc.sync.LockAccessor? {
      LockingAccessorServed(s, v, pc.sync.k);
    } else if pc.Common? && pc.phase.Waiting? && !s.gens[pc.g].migrated {
      MigrationServed(s, v, pc.g);
    }
  }

  lemma SyncHolderServed(s: State, v: nat)
    requires Inv(s) && v < |s.threads| && HoldsSync(s.threads[v].pc)
    ensures SomeoneSteps(s)
  {
    hide Inv;
    Ready(s, v);
    var pc := s.threads[v].pc;
    if pc.Syncing? && pc.sync.LockList? {
      if s.list.Some? {
        HoldersExist(s, 0);
        LocksOf(s, s.list.value);
        ListHolderServed(s, s.list.value);
      }
    } else {
      ListHolderServed(s, v);
    }
  }

  // A leader that has not finished is on its way.
  lemma LeaderServed(s: State, g: nat)
    requires Inv(s) && g < |s.gens| && s.gens[g].leader.Some? && !s.gens[g].finished
    ensures SomeoneSteps(s)
  {
    hide LocksOk, AccessorOk, FetchOk, PartOk, Driven, HoldersOk;
    assert GenOk(s, g);
    var u := s.gens[g].leader.value;
    assert ThreadOk(s, u);
    var pc := s.threads[u].pc;
    Ready(s, u);
    if HoldsSync(pc) {
      SyncHolderServed(s, u);
    } else if s.sync.Some? {
      HoldersExist(s, 0);
      LocksOf(s, s.sync.value);
      HolderServed(s);
    }
  }

  lemma HolderServed(s: State)
    requires Inv(s) && s.sync.Some?
    ensures SomeoneSteps(s)
  {
    hide Inv;
    HoldersExist(s, 0);
    LocksOf(s, s.sync.value);
    SyncHolderServed(s, s.sync.value);
  }

  lemma ListServed(s: State)
    requires Inv(s) && s.list.Some?
    ensures SomeoneSteps(s)
  {
    hide Inv;
    HoldersExist(s, 0);
    LocksOf(s, s.list.value);
    ListHolderServed(s, s.list.value);
  }

  lemma BlockServed(s: State, t: nat, g: nat)
    requires Inv(s) && t < |s.threads| && s.threads[t].pc == Writing(Block(g))
    ensures SomeoneSteps(s)
  {
    hide Inv;
    Ready(s, t);
    LocksOf(s, t);
    var i := s.threads[t].ix.value;
    if s.accessors[i].mutex.Some? {
      var w := s.accessors[i].mutex.value;
      HoldersExist(s, i);
      LocksOf(s, w);
      assert HoldsAccessor(s.threads[w].pc, s.threads[w].ix, i);
      ListHolderServed(s, w);
    }
  }

  lemma AwaitServed(s: State, t: nat)
    requires Inv(s) && t < |s.threads| && s.threads[t].pc.Growing?
    ensures SomeoneSteps(s)
  {
    hide LocksOk, AccessorOk, LeadOk, PartOk, Driven, HoldersOk;
    Ready(s, t);
    assert ThreadOk(s, t);
    var gr := s.threads[t].pc.grow;
    if (gr.AwaitReady? && !s.gens[gr.g].ready) || (gr.AwaitFinished? && !s.gens[gr.g].finished) {
      assert GenOk(s, gr.g);
      LeaderServed(s, gr.g);
    }
  }

  // Resizes cannot deadlock: in every reachable state where some leader, follower, writer or len() caller
  // has not returned, a thread that has not returned can take a step.
  lemma NeverDeadlocked(run: seq<State>, i: nat, t: nat)
    requires Run(run) && i < |run| && t < |run[i].threads| && !run[i].threads[t].pc.Idle?
    ensures SomeoneSteps(run[i])
  {
    hide Run, Inv, SomeoneSteps;
    RunInv(run, i);
    var s, pc := run[i], run[i].threads[t].pc;
    Ready(s, t);
    match pc {
      case Joining(j) => if s.list.Some? { ListServed(s); }
      case Writing(w) => if w.Block? { BlockServed(s, t, w.g); }
      case Growing(_) => AwaitServed(s, t);
      case Common(_, g, ph) => if ph.Waiting? && !s.gens[g].migrated { MigrationServed(s, t, g); }
      case Syncing(_, y) =>
        if y.LockSync? && s.sync.Some? {
          HolderServed(s);
        } else if y.LockList? && s.list.Some? {
          ListServed(s);
        } else if y.LockAccessor? {
          LockingAccessorServed(s, t, y.k);
        }
      case _ =>
    }
  }

  // While a leader, or a len() caller, holds every lock, no other thread is in its critical section.
  lemma FrozenWriters(run: seq<State>, i: nat, u: nat, t: nat)
    requires Run(run) && i < |run| && u < |run[i].threads| && t < |run[i].threads| && t != u
    requires HoldsAll(run[i].threads[u].pc)
    ensures !InSection(run[i].threads[t].pc)
  {
    hide Run, Inv;
    RunInv(run, i);
    AllLocked(run[i], u, t);
  }

  lemma AllLocked(s: State, u: nat, t: nat)
    requires Inv(s) && u < |s.threads| && t < |s.threads| && t != u && HoldsAll(s.threads[u].pc)
    ensures !InSection(s.threads[t].pc) && !HoldsAll(s.threads[t].pc)
  {
    hide Inv;
    LocksOf(s, u);
    LocksOf(s, t);
    assert forall i :: 0 <= i < |s.accessors| ==> HoldsAccessor(s.threads[u].pc, s.threads[u].ix, i);
    if InSection(s.threads[t].pc) {
      SectionHolds(s, t);
    }
  }

  // Past the check of resize_leader, inside the critical section.
  predicate PastCheck(pc: Pc) {
    && pc.Writing?
    && (pc.write.Section? || pc.write.CountLoad? || pc.write.CountStore? || pc.write.CountDirty? || pc.write.Leave?)
  }

  lemma PublisherHoldsAll(s: State, t: nat, ch: Choice, s': State)
    requires Takes(s, t, ch, s') && t < |s.threads| && |s'.gens| != |s.gens|
    ensures HoldsAll(s.threads[t].pc)
  {
    hide Inv, Enabled, WriteStep, SyncStep, CommonStep, CountStep, JoinStep, GrowStep;
    Own(s, t, ch, s');
    match s.threads[t].pc {
      case Writing(_) => OwnFetch(s, t); WriteIs(s, t, ch, s'); assert false;
      case Syncing(_, _) => SyncAlone(s, t, ch, s'); assert false;
      case Common(_, _, _) => OthersAdd(s, t, ch, s'); assert false;
      case Joining(_) => OthersAdd(s, t, ch, s'); assert false;
      case Growing(_) => OthersAdd(s, t, ch, s'); assert false;
      case Idle => OthersAdd(s, t, ch, s'); assert false;
      case Leading(_, _) =>
      case Counting(_) =>
    }
  }

  lemma OthersAdd(s: State, t: nat, ch: Choice, s': State)
    requires Takes(s, t, ch, s') && t < |s.threads|
    requires var pc := s.threads[t].pc; pc.Common? || pc.Joining? || pc.Growing? || pc.Idle?
    ensures |s'.gens| == |s.gens|
  {
    hide Inv, Enabled;
  }

  lemma PastCheckFrom(s: State, t: nat, ch: Choice, s': State)
    requires t < |s.threads| && s.threads[t].pc.Writing? && InRange(s, t)
    requires s' == WriteStep(s, t, s.threads[t].ix.value, s.threads[t].pc.write, ch)
    ensures t < |s'.threads|
    ensures PastCheck(s'.threads[t].pc) ==>
              || PastCheck(s.threads[t].pc)
              || (s.threads[t].pc.write.Check? && s.gens[s.threads[t].pc.write.g].leader.None?)
  {
    hide Atomically, Counted;
  }

  lemma WritesNewest(s: State, t: nat, ch: Choice, s': State)
    requires Takes(s, t, ch, s') && t < |s.threads| && s.threads[t].pc.Writing? && t < |s'.threads|
    requires PastCheck(s'.threads[t].pc) && (PastCheck(s.threads[t].pc) ==> s.threads[t].pc.write.g == Newest(s))
    ensures s'.threads[t].pc.write.g == Newest(s')
  {
    hide Inv, Enabled, WriteStep, Shared, ThreadOk;
    NewestUnled(s);
    Own(s, t, ch, s');
    OwnFetch(s, t);
    PastCheckFrom(s, t, ch, s');
    WriteIs(s, t, ch, s');
  }

  lemma ChecksNewest(s: State, t: nat, ch: Choice, s': State)
    requires Takes(s, t, ch, s') && t < |s.threads| && t < |s'.threads| && PastCheck(s'.threads[t].pc)
    requires PastCheck(s.threads[t].pc) ==> s.threads[t].pc.write.g == Newest(s)
    ensures s'.threads[t].pc.write.g == Newest(s')
  {
    hide Takes;
    if s.threads[t].pc.Writing? {
      WritesNewest(s, t, ch, s');
    } else if s.threads[t].pc.Syncing? {
      SyncOutside(s, t, ch, s');
      assert false;
    } else {
      LeavesSection(s, t, ch, s');
      assert false;
    }
  }

  lemma SyncOutside(s: State, t: nat, ch: Choice, s': State)
    requires Takes(s, t, ch, s') && t < |s.threads| && s.threads[t].pc.Syncing?
    ensures t < |s'.threads| && !PastCheck(s'.threads[t].pc)
  {
    hide Inv, Enabled, SyncStep;
    SyncIs(s, t, ch, s');
  }

  lemma LeavesSection(s: State, t: nat, ch: Choice, s': State)
    requires Takes(s, t, ch, s') && t < |s.threads| && !s.threads[t].pc.Writing? && !s.threads[t].pc.Syncing?
    ensures t < |s'.threads| && !PastCheck(s'.threads[t].pc)
  {
    hide Inv, Enabled, CommonStep, CountStep, LeadStep, JoinStep, GrowStep, Shared, ThreadOk;
    Own(s, t, ch, s');
    match s.threads[t].pc {
      case Common(_, _, _) => CommonIs(s, t, ch, s');
      case Counting(_) => HasGens(s); CountIs(s, t, s');
      case Leading(_, _) => LeadIs(s, t, s');
      case Joining(_) => JoinsOutside(s, t, s');
      case Growing(_) => GrowsOutside(s, t, ch, s');
      case _ =>
    }
  }

  lemma JoinsOutside(s: State, t: nat, s': State)
    requires t < |s.threads| && s.threads[t].pc.Joining? && s' == JoinStep(s, t, s.threads[t].pc.join)
    ensures t < |s'.threads| && !PastCheck(s'.threads[t].pc)
  {
  }

  lemma GrowsOutside(s: State, t: nat, ch: Choice, s': State)
    requires t < |s.threads| && s.threads[t].pc.Growing? && InRange(s, t)
    requires s' == GrowStep(s, t, s.threads[t].pc.grow, ch)
    ensures t < |s'.threads| && !PastCheck(s'.threads[t].pc)
  {
  }

  lemma NewestUnled(s: State)
    requires Inv(s)
    ensures forall g :: 0 <= g < |s.gens| && s.gens[g].leader.None? ==> g == Newest(s)
  {
    hide ThreadOk, Driven, HoldersOk;
    forall g | 0 <= g < |s.gens| && s.gens[g].leader.None?
      ensures g == Newest(s)
    {
      assert GenOk(s, g);
    }
  }

  // A writer changes only the newest generation: it cannot be replaced while the writer is inside.
  lemma {:induction false} SectionIsNewest(run: seq<State>, i: nat, t: nat)
    requires Run(run) && i < |run| && t < |run[i].threads| && PastCheck(run[i].threads[t].pc)
    ensures run[i].threads[t].pc.write.g == Newest(run[i])
  {
    hide Run, Inv, Takes, Evolves;
    RunInv(run, i);
    if i == 0 {
      StartsOutside(run, t);
      assert false;
    } else {
      var u: nat, ch :| Takes(run[i - 1], u, ch, run[i]) && Evolves(run[i - 1], run[i], u);
      EvolvesSizes(run[i - 1], run[i], u);
      if PastCheck(run[i - 1].threads[t].pc) { SectionIsNewest(run, i - 1, t); }
      if u == t {
        ChecksNewest(run[i - 1], t, ch, run[i]);
      } else {
        OthersWait(run[i - 1], u, ch, run[i], t);
      }
    }
  }

  lemma OthersWait(s: State, u: nat, ch: Choice, s': State, t: nat)
    requires Takes(s, u, ch, s') && Evolves(s, s', u) && t < |s.threads| && t != u && t < |s'.threads|
    requires PastCheck(s'.threads[t].pc)
    ensures s'.threads[t] == s.threads[t] && Newest(s') == Newest(s)
  {
    hide Inv, Step, Enabled, LocksEvolve, GenEvolves;
    if |s'.gens| != |s.gens| {
      PublisherHoldsAll(s, u, ch, s');
      AllLocked(s, u, t);
      assert false;
    }
  }

  lemma StartsOutside(run: seq<State>, t: nat)
    requires Run(run) && t < |run[0].threads|
    ensures !PastCheck(run[0].threads[t].pc)
  {
  }

  // The publishing CAS finds the generation that it replaces, complete and led by this thread.
  lemma PublishCasSucceeds(run: seq<State>, i: nat, t: nat, g: nat)
    requires Run(run) && i < |run| && t < |run[i].threads| && run[i].threads[t].pc == Leading(g, Publish)
    ensures g == Newest(run[i]) && g < |run[i].gens|
    ensures run[i].gens[g].leader == Some(t) && run[i].gens[g].migrated && !run[i].gens[g].finished
  {
    hide Run, LocksOk, AccessorOk, FetchOk, PartOk, Driven, Shared;
    RunInv(run, i);
    assert ThreadOk(run[i], t);
  }

  // A participant's state changes only 0 -> 1 -> 2: both of its CAS operations succeed, also when it joins
  // after the work is done.
  lemma ParticipantCasSucceeds(run: seq<State>, i: nat, t: nat)
    requires Run(run) && i < |run| && t < |run[i].threads| && run[i].threads[t].pc.Common?
    ensures InRange(run[i], t)
    ensures var th := run[i].threads[t];
            var n := run[i].gens[th.pc.g].parts.value[th.ix.value];
            && (th.pc.phase.Entering? ==> n == 0) && (th.pc.phase.Leaving? ==> n == 1)
  {
    hide Run, LocksOk, AccessorOk, LeadOk, FetchOk, Driven, Shared;
    RunInv(run, i);
    OkInRange(run[i], t);
    assert ThreadOk(run[i], t);
  }

  // A follower goes on only when the generation that it helped to migrate has been replaced: what it fetches
  // next is a newer one.
  lemma FollowersRefetch(run: seq<State>, i: nat, t: nat, g: nat)
    requires Run(run) && i < |run| && t < |run[i].threads| && run[i].threads[t].pc == Growing(AwaitFinished(g))
    ensures InRange(run[i], t)
    ensures Enabled(run[i], t) ==> g < Newest(run[i])
  {
    hide Run, LocksOk, AccessorOk, LeadOk, PartOk, Driven;
    RunInv(run, i);
    OkInRange(run[i], t);
    assert ThreadOk(run[i], t);
    if g < |run[i].gens| {
      assert GenOk(run[i], g);
    }
  }

  // From state i to state j a generation keeps its leader, and generations are only added; only the
  // newest may lack a leader, and all the others were migrated completely before they were replaced.
  ghost predicate Succession(run: seq<State>, i: nat, j: nat) {
    && i <= j < |run| && |run[i].gens| <= |run[j].gens|
    && (forall g :: 0 <= g < |run[i].gens| && run[i].gens[g].leader.Some? ==>
          run[j].gens[g].leader == run[i].gens[g].leader)
    && (forall g :: 0 <= g < |run[j].gens| - 1 ==> run[j].gens[g].leader.Some? && run[j].gens[g].migrated)
  }

  lemma {:induction false} OneLeaderEver(run: seq<State>, i: nat, j: nat)
    requires Run(run) && i <= j < |run|
    ensures Succession(run, i, j)
    decreases j
  {
    hide Run, Inv, Takes, Evolves;
    RunInv(run, j);
    OlderLed(run[j]);
    if i < j {
      OneLeaderEver(run, i, j - 1);
      var t: nat, ch :| Takes(run[j - 1], t, ch, run[j]) && Evolves(run[j - 1], run[j], t);
      LeadersStay(run[j - 1], run[j], t);
    }
  }

  lemma OlderLed(s: State)
    requires Inv(s)
    ensures forall g :: 0 <= g < |s.gens| - 1 ==> s.gens[g].leader.Some? && s.gens[g].migrated
  {
    hide ThreadOk, Driven, HoldersOk;
    forall g | 0 <= g < |s.gens| - 1
      ensures s.gens[g].leader.Some? && s.gens[g].migrated
    {
      assert GenOk(s, g);
    }
  }

  lemma LeadersStay(s: State, s': State, t: nat)
    requires Evolves(s, s', t)
    ensures |s.gens| <= |s'.gens|
    ensures forall g :: 0 <= g < |s.gens| && s.gens[g].leader.Some? ==> s'.gens[g].leader == s.gens[g].leader
  {
    hide LocksEvolve, PartsEvolve;
    forall g | 0 <= g < |s.gens| && s.gens[g].leader.Some?
      ensures s'.gens[g].leader == s.gens[g].leader
    {
      assert GenEvolves(s, s.gens[g], s'.gens[g], t);
    }
  }
}
