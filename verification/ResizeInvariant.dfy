// The invariant of ResizeProtocol: who holds which lock, where a leader and its followers are, and what the
// counters add up to.
module ResizeInvariant {
  import opened Options
  import opened ResizeProtocol

  // ---- locks, by the holder's pc ----

  predicate HoldsSync(pc: Pc) {
    match pc
    case Syncing(_, y) => y.LockList? || y.LockAccessor? || y.UnlockSync?
    case Leading(_, _) => true
    case Common(leads, _, _) => leads
    case Counting(_) => true
    case _ => false
  }

  predicate HoldsList(pc: Pc) {
    match pc
    case Joining(j) => j.Link? || j.Linked?
    case Syncing(_, y) => y.LockAccessor? || y.UnlockSync? || y.UnlockAccessor? || y.UnlockList?
    case Leading(_, _) => true
    case Common(leads, _, _) => leads
    case Counting(_) => true
    case _ => false
  }

  predicate InSection(pc: Pc) {
    match pc
    case Writing(w) => w.Check? || w.Drop? || w.Section? || w.CountLoad? || w.CountStore? || w.CountDirty? || w.Leave?
    case _ => false
  }

  // Between the two halves of a synchronous operation every accessor is locked.
  predicate HoldsAll(pc: Pc) {
    match pc
    case Syncing(_, y) => y.UnlockSync?
    case Leading(_, _) => true
    case Common(leads, _, _) => leads
    case Counting(_) => true
    case _ => false
  }

  predicate HoldsAccessor(pc: Pc, ix: Option<nat>, i: nat) {
    || HoldsAll(pc)
    || (InSection(pc) && ix == Some(i))
    || (pc.Syncing? && pc.sync.LockAccessor? && i < pc.sync.k)
    || (pc.Syncing? && pc.sync.UnlockAccessor? && pc.sync.k <= i)
  }

  ghost predicate LocksOk(s: State, v: nat)
    requires v < |s.threads|
  {
    var th := s.threads[v];
    && (HoldsSync(th.pc) <==> s.sync == Some(v))
    && (HoldsList(th.pc) <==> s.list == Some(v))
    && (forall i :: 0 <= i < |s.accessors| ==> (HoldsAccessor(th.pc, th.ix, i) <==> s.accessors[i].mutex == Some(v)))
  }

  // ---- accessors ----

  predicate Registered(pc: Pc) {
    pc.Writing? || pc.Growing? || pc.Common? || pc.Leading? || (pc.Syncing? && pc.who.Leader?)
        || (pc.Joining? && pc.join.Linked?)
  }

  ghost predicate AccessorOk(s: State, v: nat)
    requires v < |s.threads|
  {
    var th := s.threads[v];
    && (Registered(th.pc) ==> th.ix.Some?)
    && (th.pc.Joining? && !th.pc.join.Linked? ==> th.ix.None?)
    && (th.ix.Some? ==> th.ix.value < |s.accessors| && s.accessors[th.ix.value].owner == v)
    && (forall i :: 0 <= i < |s.accessors| && s.accessors[i].owner == v ==> th.ix == Some(i))
  }

  // ---- generations ----

  // The generation that a thread has fetched and may still act on.
  function GenOf(pc: Pc): Option<nat> {
    match pc
    case Writing(w) => if w.Fetch? then None else Some(w.g)
    case Growing(gr) => if gr.GrowFetch? then None else Some(gr.g)
    case Common(_, g, _) => Some(g)
    case Syncing(who, _) => if who.Leader? then Some(who.g) else None
    case Leading(g, _) => Some(g)
    case _ => None
  }

  // The generation that a thread leads, from its election until it sets resize_done.
  function LeadOf(pc: Pc): Option<nat> {
    match pc
    case Syncing(who, y) => if who.Leader? && (y.LockSync? || y.LockList? || y.LockAccessor?) then Some(who.g) else None
    case Leading(g, _) => Some(g)
    case Common(leads, g, _) => if leads then Some(g) else None
    case _ => None
  }

  // How far the leader of a generation has come.
  ghost predicate LeaderAt(s: State, pc: Pc, g: nat)
    requires g < |s.gens|
  {
    var gen := s.gens[g];
    match pc
    case Syncing(_, _) => gen.parts.None? && g + 1 == |s.gens|
    case Leading(_, Prepare) => gen.parts.None? && g + 1 == |s.gens|
    case Leading(_, SetReady) => gen.parts.Some? && !gen.ready && g + 1 == |s.gens|
    case Common(_, _, _) => gen.ready && g + 1 == |s.gens|
    case Leading(_, Publish) => gen.ready && gen.migrated && g + 1 == |s.gens|
    case Leading(_, SetFinished) => gen.ready && gen.migrated && g + 2 == |s.gens|
    case _ => true
  }

  ghost predicate LeadOk(s: State, v: nat)
    requires v < |s.threads|
  {
    var pc := s.threads[v].pc;
    && (LeadOf(pc).Some? ==>
          && LeadOf(pc).value < |s.gens| && s.gens[LeadOf(pc).value].leader == Some(v)
          && !s.gens[LeadOf(pc).value].finished
          && LeaderAt(s, pc, LeadOf(pc).value))
    && (forall g :: 0 <= g < |s.gens| && s.gens[g].leader == Some(v) && !s.gens[g].finished ==> LeadOf(pc) == Some(g))
  }

  // A thread that fetched g found itself in the list before g's participants were allocated.
  ghost predicate FetchOk(s: State, v: nat)
    requires v < |s.threads|
  {
    var th := s.threads[v];
    GenOf(th.pc).Some? ==>
      var g := GenOf(th.pc).value;
      && g < |s.gens|
      && (th.pc.Growing? && (th.pc.grow.AwaitReady? || th.pc.grow.AwaitFinished?) ==> s.gens[g].leader.Some?)
      && (th.pc.Writing? && th.pc.write.Drop? ==> s.gens[g].leader.Some?)
      && (th.pc.Common? ==> s.gens[g].ready)
      && (th.ix.Some? && s.gens[g].parts.Some? ==> th.ix.value < |s.gens[g].parts.value|)
  }

  predicate PhaseState(ph: Phase, n: nat) {
    match ph
    case Outside => true
    case Entering => n == 0
    case Working => n == 1
    case Leaving => n == 1
    case _ => n == 2
  }

  // A participant's state tells its phase, until the migration is done.
  ghost predicate PartOk(s: State, v: nat)
    requires v < |s.threads|
  {
    var th := s.threads[v];
    && (th.pc.Common? && th.pc.g < |s.gens| && s.gens[th.pc.g].parts.Some? && th.ix.Some?
          && th.ix.value < |s.gens[th.pc.g].parts.value| ==>
          PhaseState(th.pc.phase, s.gens[th.pc.g].parts.value[th.ix.value]))
    && (forall g :: 0 <= g < |s.gens| ==> PartIs(s, v, g))
  }

  // A thread takes part in a generation only once: a state that is not 0 belongs to a participant on its
  // way, or the migration is done.
  ghost predicate PartIs(s: State, v: nat, g: nat)
    requires v < |s.threads| && g < |s.gens|
  {
    var th, gen := s.threads[v], s.gens[g];
    gen.parts.Some? && th.ix.Some? && th.ix.value < |gen.parts.value| && gen.parts.value[th.ix.value] != 0 ==>
      && (gen.parts.value[th.ix.value] == 1 ==>
            th.pc.Common? && th.pc.g == g && (th.pc.phase.Working? || th.pc.phase.Leaving?))
      && (gen.parts.value[th.ix.value] != 1 && !gen.migrated ==>
            th.pc.Common? && th.pc.g == g && (th.pc.phase.Scanning? || th.pc.phase.Setting? || th.pc.phase.Waiting?))
  }

  ghost predicate ThreadOk(s: State, v: nat)
    requires v < |s.threads|
  {
    LocksOk(s, v) && AccessorOk(s, v) && LeadOk(s, v) && FetchOk(s, v) && PartOk(s, v)
  }

  // ---- shared state ----

  ghost predicate GenOk(s: State, g: nat)
    requires g < |s.gens|
  {
    var gen := s.gens[g];
    && (g + 1 < |s.gens| ==> gen.leader.Some? && gen.parts.Some? && gen.ready && gen.migrated)
    && (gen.leader.None? ==> gen == Gen(None, None, false, false, false))
    && (gen.leader.Some? ==> gen.leader.value < |s.threads|)
    && (gen.ready ==> gen.parts.Some?)
    && (gen.migrated ==> gen.ready) && (gen.finished ==> gen.migrated && g + 1 < |s.gens|)
    && (gen.parts.Some? ==> |gen.parts.value| <= |s.accessors|)
    && (gen.parts.Some? && g + 1 == |s.gens| ==> |gen.parts.value| == |s.accessors|)
  }

  ghost predicate HoldersOk(s: State) {
    && (s.sync.Some? ==> s.sync.value < |s.threads|)
    && (s.list.Some? ==> s.list.value < |s.threads|)
    && forall i :: 0 <= i < |s.accessors| ==>
         s.accessors[i].owner < |s.threads| && (s.accessors[i].mutex.Some? ==> s.accessors[i].mutex.value < |s.threads|)
  }

  // Somebody is at work on generation g.
  predicate Active(s: State, u: nat, g: nat) {
    && u < |s.threads| && s.threads[u].pc.Common? && s.threads[u].pc.g == g
    && (var ph := s.threads[u].pc.phase; ph.Working? || ph.Leaving? || ph.Scanning? || ph.Setting?)
  }

  predicate Stalls(s: State, v: nat, g: nat) {
    v < |s.threads| && s.threads[v].pc.Common? && s.threads[v].pc.g == g && s.threads[v].pc.phase.Waiting?
  }

  // Whoever waits for the migration has an active participant to wait for.
  ghost predicate Driven(s: State, g: nat)
    requires g < |s.gens|
  {
    s.gens[g].migrated || (forall v: nat :: !Stalls(s, v, g)) || exists u: nat :: Active(s, u, g)
  }

  ghost predicate Shared(s: State) {
    && s.gens != []
    && (forall g :: 0 <= g < |s.gens| ==> GenOk(s, g))
    && HoldersOk(s)
  }

  ghost predicate Inv(s: State) {
    && Shared(s)
    && (forall v :: 0 <= v < |s.threads| ==> ThreadOk(s, v))
    && (forall g :: 0 <= g < |s.gens| ==> Driven(s, g))
  }

  // ---- what a step may do to the others ----

  ghost predicate LocksEvolve(s: State, s': State, t: nat) {
    && (forall v :: 0 <= v < |s.threads| && v != t ==> (s'.sync == Some(v) <==> s.sync == Some(v)))
    && (forall v :: 0 <= v < |s.threads| && v != t ==> (s'.list == Some(v) <==> s.list == Some(v)))
    && |s.accessors| <= |s'.accessors| && (|s.accessors| < |s'.accessors| ==> s.list == Some(t))
    && (forall i :: 0 <= i < |s.accessors| ==> s'.accessors[i].owner == s.accessors[i].owner)
    && (forall i, v :: 0 <= i < |s.accessors| && v != t ==>
          (s'.accessors[i].mutex == Some(v) <==> s.accessors[i].mutex == Some(v)))
    && (forall i :: |s.accessors| <= i < |s'.accessors| ==> s'.accessors[i] == Accessor(t, None, 0))
  }

  ghost predicate PartsEvolve(s: State, a: Gen, b: Gen, t: nat) {
    match a.parts
    case None =>
      b.parts.Some? ==>
        && a.leader == Some(t) && |b.parts.value| == |s.accessors|
        && forall i :: 0 <= i < |b.parts.value| ==> b.parts.value[i] == 0
    case Some(p) =>
      && b.parts.Some? && |b.parts.value| == |p|
      && forall i :: 0 <= i < |p| && i < |s.accessors| && s.accessors[i].owner != t ==> b.parts.value[i] == p[i]
  }

  ghost predicate GenEvolves(s: State, a: Gen, b: Gen, t: nat) {
    && (a.leader.Some? ==> b.leader == a.leader) && (a.leader.None? ==> b.leader.None? || b.leader == Some(t))
    && (a.ready ==> b.ready) && (b.ready && !a.ready ==> a.leader == Some(t))
    && (a.migrated ==> b.migrated)
    && (a.finished ==> b.finished) && (b.finished && !a.finished ==> a.leader == Some(t))
    && PartsEvolve(s, a, b, t)
  }

  ghost predicate Evolves(s: State, s': State, t: nat) {
    && t < |s.threads| == |s'.threads| && s.gens != []
    && (forall v :: 0 <= v < |s.threads| && v != t ==> s'.threads[v] == s.threads[v])
    && LocksEvolve(s, s', t)
    && |s.gens| <= |s'.gens|
    && (|s.gens| < |s'.gens| ==> s.gens[|s.gens| - 1].leader == Some(t) && s.sync == Some(t))
    && (forall g :: 0 <= g < |s.gens| ==> GenEvolves(s, s.gens[g], s'.gens[g], t))
    && (forall g :: |s.gens| <= g < |s'.gens| ==> s'.gens[g] == Gen(None, None, false, false, false))
  }

  lemma LocksStable(s: State, s': State, t: nat, v: nat)
    requires Evolves(s, s', t) && v < |s.threads| && v != t && LocksOk(s, v) && AccessorOk(s, v)
    ensures LocksOk(s', v)
  {
    hide GenEvolves;
    var th := s.threads[v];
    forall i | 0 <= i < |s'.accessors|
      ensures HoldsAccessor(th.pc, th.ix, i) <==> s'.accessors[i].mutex == Some(v)
    {
      if i >= |s.accessors| {
        assert !HoldsList(th.pc);
      }
    }
  }

  lemma AccessorStable(s: State, s': State, t: nat, v: nat)
    requires Evolves(s, s', t) && v < |s.threads| && v != t && AccessorOk(s, v)
    ensures AccessorOk(s', v)
  {
    hide GenEvolves;
  }

  lemma LeadStable(s: State, s': State, t: nat, v: nat)
    requires Evolves(s, s', t) && v < |s.threads| && v != t && LeadOk(s, v) && LocksOk(s, v)
    ensures LeadOk(s', v)
  {
    hide LocksEvolve;
    var pc := s.threads[v].pc;
    if LeadOf(pc).Some? {
      var g := LeadOf(pc).value;
      assert GenEvolves(s, s.gens[g], s'.gens[g], t);
    }
    forall g | 0 <= g < |s'.gens| && s'.gens[g].leader == Some(v) && !s'.gens[g].finished
      ensures LeadOf(pc) == Some(g)
    {
      if g < |s.gens| {
        assert GenEvolves(s, s.gens[g], s'.gens[g], t);
      }
    }
  }

  lemma FetchStable(s: State, s': State, t: nat, v: nat)
    requires Evolves(s, s', t) && v < |s.threads| && v != t && FetchOk(s, v) && AccessorOk(s, v)
    ensures FetchOk(s', v)
  {
    hide LocksEvolve;
    var pc := s.threads[v].pc;
    if GenOf(pc).Some? {
      var g := GenOf(pc).value;
      assert GenEvolves(s, s.gens[g], s'.gens[g], t);
    }
  }

  lemma PartStable(s: State, s': State, t: nat, v: nat)
    requires Evolves(s, s', t) && v < |s.threads| && v != t && PartOk(s, v) && AccessorOk(s, v) && FetchOk(s, v)
    requires Shared(s)
    ensures PartOk(s', v)
  {
    hide LocksEvolve, HoldersOk;
    var th := s.threads[v];
    forall g | 0 <= g < |s'.gens|
      ensures PartIs(s', v, g)
    {
      if g < |s.gens| {
        assert GenEvolves(s, s.gens[g], s'.gens[g], t) && PartIs(s, v, g);
      }
    }
    if th.pc.Common? {
      assert GenEvolves(s, s.gens[th.pc.g], s'.gens[th.pc.g], t);
      assert GenOk(s, th.pc.g);
    }
  }

  lemma OthersOk(s: State, s': State, t: nat, v: nat)
    requires Evolves(s, s', t) && v < |s.threads| && v != t && Inv(s)
    ensures |s'.threads| == |s.threads| && ThreadOk(s', v)
  {
    hide LocksOk, AccessorOk, LeadOk, FetchOk, PartOk, LocksEvolve, GenEvolves;
    assert ThreadOk(s, v);
    LocksStable(s, s', t, v);
    AccessorStable(s, s', t, v);
    LeadStable(s, s', t, v);
    FetchStable(s, s', t, v);
    PartStable(s, s', t, v);
  }
}
