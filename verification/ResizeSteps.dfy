// Every step of ResizeProtocol keeps its invariant.
module ResizeSteps {
  import opened Options
  import opened MapSpec
  import opened ResizeProtocol
  import opened ResizeInvariant

  ghost predicate Takes(s: State, t: nat, ch: Choice, s': State) {
    Inv(s) && InRange(s, t) && Enabled(s, t) && s' == Step(s, t, ch)
  }

  ghost predicate Kept(s: State, s': State, t: nat) {
    Evolves(s, s', t) && Shared(s') && ThreadOk(s', t)
  }

  lemma Own(s: State, t: nat, ch: Choice, s': State)
    requires Takes(s, t, ch, s')
    ensures t < |s.threads| && Shared(s) && ThreadOk(s, t)
  {
  }

  lemma GensSame(s: State, s': State)
    requires Shared(s) && s'.gens == s.gens && |s'.threads| == |s.threads|
    requires |s'.accessors| == |s.accessors| || (s.gens[|s.gens| - 1].parts.None? && |s.accessors| <= |s'.accessors|)
    ensures forall g :: 0 <= g < |s'.gens| ==> GenOk(s', g)
  {
    hide HoldersOk;
    forall g | 0 <= g < |s'.gens|
      ensures GenOk(s', g)
    {
      assert GenOk(s, g);
    }
  }

  // A thread that is in no phase of a migration before and after, or in the same one.
  lemma PartSame(s: State, s': State, t: nat)
    requires t < |s.threads| == |s'.threads| && s'.gens == s.gens && s'.threads[t].ix == s.threads[t].ix && PartOk(s, t)
    requires s'.threads[t].pc.Common? ==>
               s.threads[t].pc.Common? && s'.threads[t].pc.(leads := false) == s.threads[t].pc.(leads := false)
    requires s.threads[t].pc.Common? && !s'.threads[t].pc.Common? ==>
               s.threads[t].pc.g < |s.gens| && s.gens[s.threads[t].pc.g].migrated
    requires s.threads[t].pc.Common? ==> !s.threads[t].pc.phase.Working? && !s.threads[t].pc.phase.Leaving?
    ensures PartOk(s', t)
  {
    forall g | 0 <= g < |s'.gens|
      ensures PartIs(s', t, g)
    {
      assert PartIs(s, t, g);
    }
  }

  lemma StartKept(s: State, t: nat, ch: Choice, s': State)
    requires t < |s.threads| && Shared(s) && ThreadOk(s, t) && s.threads[t].pc.Idle?
    requires s' == StartStep(s, t, ch)
    ensures Kept(s, s', t)
  {
    hide GenOk, PartOk;
    GensSame(s, s');
    PartSame(s, s', t);
  }

  // No accessor joins while a generation is being prepared or migrated: its leader holds the list's lock.
  lemma NotPrepared(s: State, t: nat)
    requires Inv(s) && t < |s.threads| && LocksOk(s, t) && HoldsList(s.threads[t].pc) && LeadOf(s.threads[t].pc).None?
    ensures s.gens[|s.gens| - 1].parts.None?
  {
    var g := |s.gens| - 1;
    assert GenOk(s, g);
    if s.gens[g].leader.Some? {
      var u := s.gens[g].leader.value;
      assert ThreadOk(s, u);
      LeadersHold(s, u, g);
    }
  }

  lemma LeadersHold(s: State, u: nat, g: nat)
    requires u < |s.threads| && LeadOk(s, u) && LocksOk(s, u) && g < |s.gens| && s.gens[g].leader == Some(u)
    requires !s.gens[g].finished
    ensures LeadOf(s.threads[u].pc) == Some(g)
    ensures s.gens[g].parts.Some? ==> s.list == Some(u) && s.sync == Some(u)
  {
  }

  lemma JoinKept(s: State, t: nat, s': State)
    requires Inv(s) && t < |s.threads| && ThreadOk(s, t) && s.threads[t].pc.Joining?
    requires s.threads[t].pc.join.Enlist? ==> s.list.None?
    requires s' == JoinStep(s, t, s.threads[t].pc.join)
    ensures Kept(s, s', t)
  {
    hide GenOk, PartOk, Inv, LocksOk, LeadOk, FetchOk, HoldersOk, Evolves;
    InvShared(s);
    if s.threads[t].pc.join.Link? {
      NotPrepared(s, t);
      LinkLocks(s, t, s');
      LinkPart(s, t, s');
    } else {
      ListHeld(s, t);
      BigLockKeeps(s, s', t);
      FetchSame(s, s', t);
      FollowerSame(s, s', t);
      PartSame(s, s', t);
    }
    GensSame(s, s');
  }

  lemma ListHeld(s: State, t: nat)
    requires t < |s.threads| && LocksOk(s, t)
    ensures HoldsList(s.threads[t].pc) ==> s.list == Some(t)
  {
  }

  lemma LinkLocks(s: State, t: nat, s': State)
    requires t < |s.threads| && Shared(s) && s.threads[t].pc == Joining(Link) && s' == JoinStep(s, t, Link)
    requires LocksOk(s, t) && AccessorOk(s, t) && LeadOk(s, t)
    ensures Evolves(s, s', t) && LocksOk(s', t) && HoldersOk(s') && LeadOk(s', t) && FetchOk(s', t)
  {
    hide GenOk;
  }

  lemma InvShared(s: State)
    requires Inv(s)
    ensures Shared(s)
  {
  }

  lemma LinkPart(s: State, t: nat, s': State)
    requires Shared(s) && t < |s.threads| && ThreadOk(s, t) && s.threads[t].pc == Joining(Link)
    requires s' == JoinStep(s, t, Link)
    ensures PartOk(s', t)
  {
    forall g | 0 <= g < |s'.gens|
      ensures PartIs(s', t, g)
    {
      assert GenOk(s, g);
    }
  }

  // ---- kinds of steps ----

  ghost predicate Alone(s: State, s': State, t: nat) {
    && t < |s.threads| == |s'.threads| && s.gens != [] && s'.gens == s.gens && s'.threads[t].ix == s.threads[t].ix
    && (forall v :: 0 <= v < |s.threads| && v != t ==> s'.threads[v] == s.threads[v])
    && |s'.accessors| == |s.accessors|
  }

  // The accessors' owners and mutexes, except the mutex of accessor i.
  ghost predicate AccessorsKept(s: State, s': State, x: int) {
    && |s'.accessors| == |s.accessors|
    && forall i :: 0 <= i < |s.accessors| ==>
         s'.accessors[i].owner == s.accessors[i].owner && (i != x ==> s'.accessors[i].mutex == s.accessors[i].mutex)
  }

  ghost predicate HoldsSame(a: Thread, b: Thread, n: nat, x: int) {
    && (HoldsSync(a.pc) <==> HoldsSync(b.pc)) && (HoldsList(a.pc) <==> HoldsList(b.pc))
    && forall i :: 0 <= i < n && i != x ==> (HoldsAccessor(a.pc, a.ix, i) <==> HoldsAccessor(b.pc, b.ix, i))
  }

  lemma MoveKeeps(s: State, s': State, t: nat)
    requires Alone(s, s', t) && s'.sync == s.sync && s'.list == s.list && AccessorsKept(s, s', -1)
    requires HoldsSame(s.threads[t], s'.threads[t], |s.accessors|, -1) && LocksOk(s, t) && HoldersOk(s)
    ensures Evolves(s, s', t) && LocksOk(s', t) && HoldersOk(s')
  {
  }

  lemma LockKeeps(s: State, s': State, t: nat, x: nat)
    requires Alone(s, s', t) && s'.sync == s.sync && s'.list == s.list && x < |s.accessors| && AccessorsKept(s, s', x)
    requires s.accessors[x].mutex.None? && s'.accessors[x].mutex == Some(t)
    requires HoldsAccessor(s'.threads[t].pc, s'.threads[t].ix, x)
    requires HoldsSame(s.threads[t], s'.threads[t], |s.accessors|, x) && LocksOk(s, t) && HoldersOk(s)
    ensures Evolves(s, s', t) && LocksOk(s', t) && HoldersOk(s')
  {
  }

  lemma UnlockKeeps(s: State, s': State, t: nat, x: nat)
    requires Alone(s, s', t) && s'.sync == s.sync && s'.list == s.list && x < |s.accessors| && AccessorsKept(s, s', x)
    requires s.accessors[x].mutex == Some(t) && s'.accessors[x].mutex.None?
    requires !HoldsAccessor(s'.threads[t].pc, s'.threads[t].ix, x)
    requires HoldsSame(s.threads[t], s'.threads[t], |s.accessors|, x) && LocksOk(s, t) && HoldersOk(s)
    ensures Evolves(s, s', t) && LocksOk(s', t) && HoldersOk(s')
  {
  }

  // ---- the steps ----

  // A thread that leads nothing, before and after.
  lemma FollowerSame(s: State, s': State, t: nat)
    requires Alone(s, s', t) && LeadOk(s, t) && LeadOf(s.threads[t].pc).None? && LeadOf(s'.threads[t].pc).None?
    ensures LeadOk(s', t)
  {
  }

  lemma AccessorSame(s: State, s': State, t: nat)
    requires Alone(s, s', t) && AccessorOk(s, t) && !s'.threads[t].pc.Joining?
    requires Registered(s'.threads[t].pc) ==> Registered(s.threads[t].pc)
    requires forall i :: 0 <= i < |s.accessors| ==> s'.accessors[i].owner == s.accessors[i].owner
    ensures AccessorOk(s', t)
  {
  }

  lemma FetchSame(s: State, s': State, t: nat)
    requires Alone(s, s', t) && FetchOk(s, t)
    requires GenOf(s'.threads[t].pc).None? || GenOf(s'.threads[t].pc) == GenOf(s.threads[t].pc)
    requires GenOf(s'.threads[t].pc).Some? && GenOf(s'.threads[t].pc).value < |s.gens| ==>
               var gen, pc' := s.gens[GenOf(s'.threads[t].pc).value], s'.threads[t].pc;
               && (pc'.Growing? ==> gen.leader.Some?) && (pc'.Writing? && pc'.write.Drop? ==> gen.leader.Some?)
               && (pc'.Common? ==> gen.ready)
    ensures FetchOk(s', t)
  {
  }

  lemma FetchNewest(s: State, s': State, t: nat)
    requires Alone(s, s', t) && Shared(s) && AccessorOk(s, t) && GenOf(s'.threads[t].pc) == Some(Newest(s))
    requires s'.threads[t].pc == Writing(TryLock(Newest(s))) || s'.threads[t].pc == Growing(Elect(Newest(s)))
    ensures FetchOk(s', t)
  {
    assert GenOk(s, Newest(s));
  }

  // A writer takes its lock,
  lemma WriterTakes(s: State, t: nat, ch: Choice, s': State)
    requires t < |s.threads| && Shared(s) && s.threads[t].pc.Writing? && InRange(s, t) && Enabled(s, t) && LocksOk(s, t)
    requires s' == WriteStep(s, t, s.threads[t].ix.value, s.threads[t].pc.write, ch)
    requires var w := s.threads[t].pc.write; w.Block? || (w.TryLock? && s.accessors[s.threads[t].ix.value].mutex.None?)
    ensures Evolves(s, s', t) && LocksOk(s', t) && HoldersOk(s')
  {
    hide GenOk, LocksOk, HoldersOk, Evolves, Atomically, Counted;
    LockKeeps(s, s', t, s.threads[t].ix.value);
  }

  // releases it,
  lemma WriterReleases(s: State, t: nat, ch: Choice, s': State)
    requires t < |s.threads| && Shared(s) && s.threads[t].pc.Writing? && InRange(s, t) && LocksOk(s, t)
    requires AccessorOk(s, t)
    requires s' == WriteStep(s, t, s.threads[t].ix.value, s.threads[t].pc.write, ch)
    requires s.threads[t].pc.write.Drop? || s.threads[t].pc.write.Leave?
    ensures Evolves(s, s', t) && LocksOk(s', t) && HoldersOk(s')
  {
    hide GenOk, LocksOk, HoldersOk, Evolves, AccessorOk, Atomically, Counted;
    SectionHolds(s, t);
    UnlockKeeps(s, s', t, s.threads[t].ix.value);
  }

  // or leaves it as it is.
  lemma WriterMoves(s: State, t: nat, ch: Choice, s': State)
    requires t < |s.threads| && Shared(s) && s.threads[t].pc.Writing? && InRange(s, t) && LocksOk(s, t)
    requires s' == WriteStep(s, t, s.threads[t].ix.value, s.threads[t].pc.write, ch)
    requires var w := s.threads[t].pc.write;
             !w.Block? && !w.Drop? && !w.Leave? && (w.TryLock? ==> s.accessors[s.threads[t].ix.value].mutex.Some?)
    ensures Evolves(s, s', t) && LocksOk(s', t) && HoldersOk(s')
  {
    hide GenOk, LocksOk, HoldersOk, Evolves, Atomically, Counted;
    MoveKeeps(s, s', t);
  }

  lemma WriteLocks(s: State, t: nat, ch: Choice, s': State)
    requires t < |s.threads| && Shared(s) && ThreadOk(s, t) && s.threads[t].pc.Writing? && InRange(s, t)
    requires Enabled(s, t)
    requires s' == WriteStep(s, t, s.threads[t].ix.value, s.threads[t].pc.write, ch)
    ensures Evolves(s, s', t) && LocksOk(s', t) && HoldersOk(s')
  {
    hide Shared, GenOk, PartOk, LeadOk, FetchOk, LocksOk, HoldersOk, Evolves, WriteStep;
    var w := s.threads[t].pc.write;
    if (w.TryLock? && s.accessors[s.threads[t].ix.value].mutex.None?) || w.Block? {
      WriterTakes(s, t, ch, s');
    } else if w.Drop? || w.Leave? {
      WriterReleases(s, t, ch, s');
    } else {
      WriterMoves(s, t, ch, s');
    }
  }

  lemma SectionHolds(s: State, t: nat)
    requires t < |s.threads| && LocksOk(s, t) && AccessorOk(s, t) && InSection(s.threads[t].pc)
    ensures s.threads[t].ix.Some? && s.threads[t].ix.value < |s.accessors|
    ensures s.accessors[s.threads[t].ix.value].mutex == Some(t)
  {
    assert HoldsAccessor(s.threads[t].pc, s.threads[t].ix, s.threads[t].ix.value);
  }

  lemma LeaderKnown(s: State, t: nat)
    requires t < |s.threads| && FetchOk(s, t)
    ensures var pc := s.threads[t].pc;
            && (GenOf(pc).Some? ==> GenOf(pc).value < |s.gens|)
            && (pc.Writing? && pc.write.Drop? ==> s.gens[pc.write.g].leader.Some?)
            && (pc.Growing? && (pc.grow.AwaitReady? || pc.grow.AwaitFinished?) ==> s.gens[pc.grow.g].leader.Some?)
            && (pc.Common? ==> s.gens[pc.g].ready)
  {
  }

  // A writer stays with its generation, and its steps concern its own accessor only.
  ghost predicate Writes(s: State, s': State, t: nat) {
    && Alone(s, s', t) && s.threads[t].pc.Writing?
    && (forall i :: 0 <= i < |s.accessors| ==> s'.accessors[i].owner == s.accessors[i].owner)
    && var pc, pc' := s.threads[t].pc, s'.threads[t].pc;
       && LeadOf(pc').None? && !pc'.Common? && !pc'.Joining?
       && if pc.write.Fetch? then pc' == Writing(TryLock(Newest(s)))
          else GenOf(pc').None? || (GenOf(pc') == GenOf(pc) && pc.write.g < |s.gens|
               && (pc'.Growing? || (pc'.Writing? && pc'.write.Drop?) ==> s.gens[pc.write.g].leader.Some?))
  }

  predicate Enters(w: Write) {
    w.Fetch? || w.TryLock? || w.HelpCheck? || w.Block?
  }

  predicate Counts(w: Write) {
    w.CountLoad? || w.CountStore? || w.CountDirty? || w.Leave?
  }

  lemma EntersIs(s: State, t: nat, ch: Choice, s': State)
    requires t < |s.threads| && s.threads[t].pc.Writing? && InRange(s, t) && Enters(s.threads[t].pc.write)
    requires s' == WriteStep(s, t, s.threads[t].ix.value, s.threads[t].pc.write, ch)
    ensures Writes(s, s', t)
  {
    hide Atomically, Counted;
  }

  lemma CountsIs(s: State, t: nat, ch: Choice, s': State)
    requires t < |s.threads| && s.threads[t].pc.Writing? && InRange(s, t) && Counts(s.threads[t].pc.write)
    requires s' == WriteStep(s, t, s.threads[t].ix.value, s.threads[t].pc.write, ch)
    ensures Writes(s, s', t)
  {
    hide Atomically, Counted;
  }

  lemma ChecksIs(s: State, t: nat, ch: Choice, s': State)
    requires t < |s.threads| && s.threads[t].pc.Writing? && InRange(s, t) && FetchOk(s, t)
    requires !Enters(s.threads[t].pc.write) && !Counts(s.threads[t].pc.write)
    requires s' == WriteStep(s, t, s.threads[t].ix.value, s.threads[t].pc.write, ch)
    ensures Writes(s, s', t)
  {
    hide Atomically, Counted;
  }

  lemma WriteIs(s: State, t: nat, ch: Choice, s': State)
    requires t < |s.threads| && s.threads[t].pc.Writing? && InRange(s, t) && FetchOk(s, t)
    requires s' == WriteStep(s, t, s.threads[t].ix.value, s.threads[t].pc.write, ch)
    ensures Writes(s, s', t)
  {
    hide WriteStep, Writes, Enters, Counts, FetchOk;
    if Enters(s.threads[t].pc.write) {
      EntersIs(s, t, ch, s');
    } else if Counts(s.threads[t].pc.write) {
      CountsIs(s, t, ch, s');
    } else {
      ChecksIs(s, t, ch, s');
    }
  }

  lemma WriteKept(s: State, t: nat, ch: Choice, s': State)
    requires t < |s.threads| && Shared(s) && ThreadOk(s, t) && s.threads[t].pc.Writing? && InRange(s, t)
    requires Enabled(s, t)
    requires s' == WriteStep(s, t, s.threads[t].ix.value, s.threads[t].pc.write, ch)
    ensures Kept(s, s', t)
  {
    hide GenOk, PartOk, LocksOk, HoldersOk, AccessorOk, LeadOk, FetchOk, Evolves, WriteStep, Enabled;
    WriteLocks(s, t, ch, s');
    WriteIs(s, t, ch, s');
    LeaderKnown(s, t);
    if s.threads[t].pc.write.Fetch? { FetchNewest(s, s', t); } else { FetchSame(s, s', t); }
    AccessorSame(s, s', t);
    FollowerSame(s, s', t);
    GensSame(s, s');
    PartSame(s, s', t);
  }

  // A thread that grows the table and is not elected only moves on.
  ghost predicate Grows(s: State, s': State, t: nat) {
    && Alone(s, s', t) && s.threads[t].pc.Growing? && s'.sync == s.sync && s'.list == s.list
    && s'.accessors == s.accessors
    && var gr, pc' := s.threads[t].pc.grow, s'.threads[t].pc;
       match gr
       case GrowFetch => pc' == Growing(Elect(Newest(s)))
       case Elect(g) => pc' == Growing(AwaitReady(g)) && g < |s.gens| && s.gens[g].leader.Some?
       case AwaitReady(g) => pc' == Common(false, g, Outside) && g < |s.gens| && s.gens[g].ready
       case AwaitFinished(_) => pc' == Writing(Fetch) || pc' == Idle
  }

  lemma GrowIs(s: State, t: nat, ch: Choice, s': State)
    requires t < |s.threads| && s.threads[t].pc.Growing? && InRange(s, t) && Enabled(s, t) && s.gens != []
    requires s' == GrowStep(s, t, s.threads[t].pc.grow, ch)
    requires var gr := s.threads[t].pc.grow; gr.Elect? ==> s.gens[gr.g].leader.Some?
    ensures Grows(s, s', t)
  {
  }

  lemma GrowFetched(s: State, s': State, t: nat)
    requires Grows(s, s', t) && Shared(s) && AccessorOk(s, t) && FetchOk(s, t)
    ensures FetchOk(s', t)
  {
    hide GenOk, HoldersOk, AccessorOk, FetchOk;
    LeaderKnown(s, t);
    if s.threads[t].pc.grow.GrowFetch? { FetchNewest(s, s', t); } else { FetchSame(s, s', t); }
  }

  lemma GrowMoves(s: State, s': State, t: nat)
    requires Grows(s, s', t) && LocksOk(s, t) && HoldersOk(s) && AccessorOk(s, t) && LeadOk(s, t)
    ensures Evolves(s, s', t) && LocksOk(s', t) && HoldersOk(s') && AccessorOk(s', t) && LeadOk(s', t)
  {
    hide LocksOk, HoldersOk, AccessorOk, LeadOk, FetchOk, Evolves;
    MoveKeeps(s, s', t);
    AccessorSame(s, s', t);
    FollowerSame(s, s', t);
  }

  lemma GrowKept(s: State, t: nat, ch: Choice, s': State)
    requires t < |s.threads| && Shared(s) && ThreadOk(s, t) && s.threads[t].pc.Growing? && InRange(s, t)
    requires Enabled(s, t)
    requires s' == GrowStep(s, t, s.threads[t].pc.grow, ch)
    ensures Kept(s, s', t)
  {
    hide GenOk, PartOk, LocksOk, HoldersOk, AccessorOk, LeadOk, FetchOk, Evolves, GrowStep, Enabled;
    var gr := s.threads[t].pc.grow;
    if gr.Elect? && s.gens[gr.g].leader.None? {
      ElectKept(s, t, ch, s');
    } else {
      GrowIs(s, t, ch, s');
      GrowMoves(s, s', t);
      GrowFetched(s, s', t);
      GensSame(s, s');
      if gr.AwaitReady? { JoinsPart(s, t, s'); } else { PartSame(s, s', t); }
    }
  }

  lemma JoinsPart(s: State, t: nat, s': State)
    requires Alone(s, s', t) && PartOk(s, t) && s.threads[t].pc.Growing?
    requires s'.threads[t].pc.Common? && s'.threads[t].pc.phase.Outside?
    ensures PartOk(s', t)
  {
    forall g | 0 <= g < |s'.gens|
      ensures PartIs(s', t, g)
    {
      assert PartIs(s, t, g);
    }
  }

  lemma ElectKept(s: State, t: nat, ch: Choice, s': State)
    requires t < |s.threads| && Shared(s) && ThreadOk(s, t) && InRange(s, t)
    requires s.threads[t].pc.Growing? && s.threads[t].pc.grow.Elect? && s.gens[s.threads[t].pc.grow.g].leader.None?
    requires s' == GrowStep(s, t, s.threads[t].pc.grow, ch)
    ensures Kept(s, s', t)
  {
    hide LocksOk, PartOk, LeadOk, GenOk, Evolves;
    var g := s.threads[t].pc.grow.g;
    ElectLocks(s, t, s');
    ElectLeads(s, t, s');
    forall h | 0 <= h < |s'.gens|
      ensures GenOk(s', h)
    {
      ElectGen(s, t, s', h);
    }
    assert GenOk(s, g);
  }

  ghost predicate Elected(s: State, t: nat, s': State) {
    && t < |s.threads| && s.threads[t].pc.Growing? && s.threads[t].pc.grow.Elect?
    && var g := s.threads[t].pc.grow.g;
       && g < |s.gens| && s.gens[g].leader.None?
       && s' == Goto(WithGen(s, g, s.gens[g].(leader := Some(t))), t, Syncing(Leader(g), LockSync))
  }

  lemma ElectLocks(s: State, t: nat, s': State)
    requires Elected(s, t, s') && LocksOk(s, t)
    ensures Evolves(s, s', t) && LocksOk(s', t)
  {
  }

  lemma ElectGen(s: State, t: nat, s': State, h: nat)
    requires Elected(s, t, s') && h < |s.gens| && GenOk(s, h)
    ensures |s'.gens| == |s.gens| && GenOk(s', h)
  {
  }

  lemma ElectLeads(s: State, t: nat, s': State)
    requires Elected(s, t, s') && LeadOk(s, t) && PartOk(s, t) && GenOk(s, s.threads[t].pc.grow.g)
    ensures |s'.threads| == |s.threads| && LeadOk(s', t) && PartOk(s', t)
  {
    forall g | 0 <= g < |s'.gens|
      ensures PartIs(s', t, g)
    {
      assert PartIs(s, t, g);
    }
  }

  // ---- a participant ----

  lemma CommonKept(s: State, t: nat, ch: Choice, s': State)
    requires t < |s.threads| && Shared(s) && ThreadOk(s, t) && s.threads[t].pc.Common? && InRange(s, t) && Enabled(s, t)
    requires var pc := s.threads[t].pc; s' == CommonStep(s, t, s.threads[t].ix.value, pc.leads, pc.g, pc.phase, ch)
    ensures Kept(s, s', t)
  {
    hide GenOk, PartOk, LocksOk, HoldersOk, AccessorOk, LeadOk, FetchOk, Evolves, CommonStep, Enabled;
    CommonIs(s, t, ch, s');
    CommonLocks(s, s', t);
    CommonGens(s, s', t);
    CommonLead(s, s', t);
    CommonPart(s, t, ch, s');
  }

  // What a participant's step changes: its own state and the completion event.
  ghost predicate PhaseStep(s: State, s': State, t: nat) {
    && t < |s.threads| == |s'.threads| && s.threads[t].pc.Common?
    && (forall v :: 0 <= v < |s.threads| && v != t ==> s'.threads[v] == s.threads[v])
    && s'.threads[t].ix == s.threads[t].ix
    && s'.sync == s.sync && s'.list == s.list && s'.accessors == s.accessors && |s'.gens| == |s.gens|
    && var g := s.threads[t].pc.g;
       && g < |s.gens|
       && (forall h :: 0 <= h < |s.gens| && h != g ==> s'.gens[h] == s.gens[h])
       && var a, b := s.gens[g], s'.gens[g];
          && b.leader == a.leader && b.ready == a.ready && b.finished == a.finished && (a.migrated ==> b.migrated)
          && a.parts.Some? && b.parts.Some? && |b.parts.value| == |a.parts.value|
          && s.threads[t].ix.Some? && s.threads[t].ix.value < |a.parts.value|
          && (forall i :: 0 <= i < |a.parts.value| && i != s.threads[t].ix.value ==>
                b.parts.value[i] == a.parts.value[i])
          && var leads, pc' := s.threads[t].pc.leads, s'.threads[t].pc;
             (pc'.Common? && pc'.leads == leads && pc'.g == g)
             || (pc' == (if leads then Leading(g, Publish) else Growing(AwaitFinished(g))) && b.migrated)
  }

  // The phases that only look,
  lemma LookIs(s: State, t: nat, ch: Choice, s': State)
    requires t < |s.threads| && s.threads[t].pc.Common? && InRange(s, t) && Enabled(s, t)
    requires var ph := s.threads[t].pc.phase; ph.Outside? || ph.Working? || ph.Scanning? || ph.Waiting?
    requires var pc := s.threads[t].pc; s' == CommonStep(s, t, s.threads[t].ix.value, pc.leads, pc.g, pc.phase, ch)
    ensures PhaseStep(s, s', t)
  {
  }

  // and those that write the participant's state or the completion event.
  lemma MarkIs(s: State, t: nat, ch: Choice, s': State)
    requires t < |s.threads| && s.threads[t].pc.Common? && InRange(s, t)
    requires var ph := s.threads[t].pc.phase; ph.Entering? || ph.Leaving? || ph.Setting?
    requires var pc := s.threads[t].pc; s' == CommonStep(s, t, s.threads[t].ix.value, pc.leads, pc.g, pc.phase, ch)
    ensures PhaseStep(s, s', t)
  {
  }

  lemma CommonIs(s: State, t: nat, ch: Choice, s': State)
    requires t < |s.threads| && s.threads[t].pc.Common? && InRange(s, t) && Enabled(s, t)
    requires var pc := s.threads[t].pc; s' == CommonStep(s, t, s.threads[t].ix.value, pc.leads, pc.g, pc.phase, ch)
    ensures PhaseStep(s, s', t)
  {
    hide CommonStep, PhaseStep, Enabled;
    match s.threads[t].pc.phase {
      case Entering => MarkIs(s, t, ch, s');
      case Leaving => MarkIs(s, t, ch, s');
      case Setting => MarkIs(s, t, ch, s');
      case _ => LookIs(s, t, ch, s');
    }
  }

  lemma CommonLocks(s: State, s': State, t: nat)
    requires PhaseStep(s, s', t) && LocksOk(s, t) && AccessorOk(s, t) && HoldersOk(s)
    ensures LocksOk(s', t) && AccessorOk(s', t) && HoldersOk(s')
  {
  }

  lemma CommonGens(s: State, s': State, t: nat)
    requires PhaseStep(s, s', t) && Shared(s) && FetchOk(s, t) && AccessorOk(s, t)
    ensures Evolves(s, s', t) && FetchOk(s', t)
    ensures forall h :: 0 <= h < |s'.gens| ==> GenOk(s', h)
  {
    hide HoldersOk;
    forall h | 0 <= h < |s'.gens|
      ensures GenOk(s', h)
    {
      assert GenOk(s, h);
    }
    assert GenOk(s, s.threads[t].pc.g);
  }

  lemma CommonLead(s: State, s': State, t: nat)
    requires PhaseStep(s, s', t) && LeadOk(s, t) && FetchOk(s, t)
    ensures LeadOk(s', t)
  {
  }

  lemma OwnPart(s: State, t: nat, ch: Choice, s': State)
    requires t < |s.threads| && s.threads[t].pc.Common? && InRange(s, t) && Enabled(s, t) && PartOk(s, t)
    requires var pc := s.threads[t].pc; s' == CommonStep(s, t, s.threads[t].ix.value, pc.leads, pc.g, pc.phase, ch)
    ensures var g := s.threads[t].pc.g; t < |s'.threads| && g < |s'.gens| && PartIs(s', t, g)
    ensures var pc := s'.threads[t].pc;
            pc.Common? ==>
              && s'.gens[s.threads[t].pc.g].parts.Some?
              && s'.threads[t].ix.Some? && s'.threads[t].ix.value < |s'.gens[s.threads[t].pc.g].parts.value|
              && PhaseState(pc.phase, s'.gens[s.threads[t].pc.g].parts.value[s'.threads[t].ix.value])
  {
    assert PartIs(s, t, s.threads[t].pc.g);
  }

  lemma CommonPart(s: State, t: nat, ch: Choice, s': State)
    requires t < |s.threads| && s.threads[t].pc.Common? && InRange(s, t) && Enabled(s, t) && PartOk(s, t)
    requires var pc := s.threads[t].pc; s' == CommonStep(s, t, s.threads[t].ix.value, pc.leads, pc.g, pc.phase, ch)
    requires PhaseStep(s, s', t)
    ensures PartOk(s', t)
  {
    hide CommonStep, PhaseState, Enabled, InRange;
    OwnPart(s, t, ch, s');
    forall g | 0 <= g < |s'.gens|
      ensures PartIs(s', t, g)
    {
      assert PartIs(s, t, g);
    }
  }

  // ---- a synchronous operation ----

  ghost predicate Passes(before: Option<nat>, after: Option<nat>, held: bool, holds: bool, t: nat) {
    || (after == before && held == holds)
    || (before.None? && after == Some(t) && holds)
    || (before == Some(t) && after.None? && !holds)
  }

  lemma BigLockKeeps(s: State, s': State, t: nat)
    requires Alone(s, s', t) && s'.accessors == s.accessors && LocksOk(s, t) && HoldersOk(s)
    requires Passes(s.sync, s'.sync, HoldsSync(s.threads[t].pc), HoldsSync(s'.threads[t].pc), t)
    requires Passes(s.list, s'.list, HoldsList(s.threads[t].pc), HoldsList(s'.threads[t].pc), t)
    requires forall i :: 0 <= i < |s.accessors| ==>
               (HoldsAccessor(s.threads[t].pc, s.threads[t].ix, i) <==>
                   HoldsAccessor(s'.threads[t].pc, s'.threads[t].ix, i))
    ensures Evolves(s, s', t) && LocksOk(s', t) && HoldersOk(s')
  {
  }

  lemma SyncLocks(s: State, t: nat, ch: Choice, s': State)
    requires t < |s.threads| && Shared(s) && s.threads[t].pc.Syncing? && InRange(s, t) && Enabled(s, t) && LocksOk(s, t)
    requires s' == SyncStep(s, t, s.threads[t].pc.who, s.threads[t].pc.sync, ch)
    ensures Evolves(s, s', t) && LocksOk(s', t) && HoldersOk(s')
  {
    hide GenOk, LocksOk, HoldersOk, Evolves;
    var y := s.threads[t].pc.sync;
    SyncHolds(s, t);
    if y.LockAccessor? && y.k < |s.accessors| {
      LockKeeps(s, s', t, y.k);
    } else if y.UnlockAccessor? && y.k < |s.accessors| {
      UnlockKeeps(s, s', t, y.k);
    } else {
      SyncPasses(s, t, ch, s');
      BigLockKeeps(s, s', t);
    }
  }

  lemma SyncPasses(s: State, t: nat, ch: Choice, s': State)
    requires t < |s.threads| && s.gens != [] && s.threads[t].pc.Syncing? && InRange(s, t) && Enabled(s, t)
    requires var y := s.threads[t].pc.sync;
             && (y.UnlockSync? ==> s.sync == Some(t)) && (y.UnlockList? ==> s.list == Some(t))
             && (y.LockAccessor? || y.UnlockAccessor? ==> y.k >= |s.accessors|)
    requires s' == SyncStep(s, t, s.threads[t].pc.who, s.threads[t].pc.sync, ch)
    ensures Alone(s, s', t) && s'.accessors == s.accessors
    ensures Passes(s.sync, s'.sync, HoldsSync(s.threads[t].pc), HoldsSync(s'.threads[t].pc), t)
    ensures Passes(s.list, s'.list, HoldsList(s.threads[t].pc), HoldsList(s'.threads[t].pc), t)
    ensures forall i :: 0 <= i < |s.accessors| ==>
              (HoldsAccessor(s.threads[t].pc, s.threads[t].ix, i) <==>
                  HoldsAccessor(s'.threads[t].pc, s'.threads[t].ix, i))
  {
  }

  lemma SyncHolds(s: State, t: nat)
    requires t < |s.threads| && s.threads[t].pc.Syncing? && LocksOk(s, t)
    ensures var y := s.threads[t].pc.sync;
            && (y.UnlockSync? ==> s.sync == Some(t)) && (y.UnlockList? ==> s.list == Some(t))
            && (y.UnlockAccessor? && y.k < |s.accessors| ==> s.accessors[y.k].mutex == Some(t))
  {
    var y := s.threads[t].pc.sync;
    if y.UnlockAccessor? && y.k < |s.accessors| {
      assert HoldsAccessor(s.threads[t].pc, s.threads[t].ix, y.k);
    }
  }

  // Where a synchronous operation goes next.
  predicate SyncsTo(who: Who, y: Sync, pc': Pc) {
    match y
    case LockSync => pc' == Syncing(who, LockList)
    case LockList => pc' == Syncing(who, LockAccessor(0))
    case LockAccessor(k) =>
      || pc' == Syncing(who, LockAccessor(k + 1))
      || pc' == if who.Leader? then Leading(who.g, Prepare) else Counting(ReadLen)
    case UnlockSync(a) => pc' == Syncing(who, UnlockAccessor(a, 0))
    case UnlockAccessor(a, k) => pc' == Syncing(who, UnlockAccessor(a, k + 1)) || pc' == Syncing(who, UnlockList(a))
    case UnlockList(_) => pc' == Idle || (who.Leader? && pc' == Writing(Fetch))
  }

  lemma SyncAlone(s: State, t: nat, ch: Choice, s': State)
    requires t < |s.threads| && s.threads[t].pc.Syncing? && InRange(s, t)
    requires s' == SyncStep(s, t, s.threads[t].pc.who, s.threads[t].pc.sync, ch)
    ensures Alone(s, s', t)
    ensures forall i :: 0 <= i < |s.accessors| ==> s'.accessors[i].owner == s.accessors[i].owner
  {
  }

  lemma SyncGoes(s: State, t: nat, ch: Choice, s': State)
    requires t < |s.threads| && s.threads[t].pc.Syncing?
    requires s' == SyncStep(s, t, s.threads[t].pc.who, s.threads[t].pc.sync, ch)
    ensures t < |s'.threads| && SyncsTo(s.threads[t].pc.who, s.threads[t].pc.sync, s'.threads[t].pc)
  {
  }

  lemma SyncIs(s: State, t: nat, ch: Choice, s': State)
    requires t < |s.threads| && s.threads[t].pc.Syncing?
    requires s' == SyncStep(s, t, s.threads[t].pc.who, s.threads[t].pc.sync, ch)
    ensures t < |s'.threads|
    ensures var pc, pc' := s.threads[t].pc, s'.threads[t].pc;
            && LeadOf(pc') == LeadOf(pc)
            && (LeadOf(pc').Some? ==> pc'.Syncing? || pc' == Leading(LeadOf(pc').value, Prepare))
            && !pc'.Common? && !pc'.Joining? && !pc'.Growing? && (pc'.Writing? ==> pc'.write.Fetch?)
            && (Registered(pc') ==> Registered(pc))
            && (GenOf(pc').None? || GenOf(pc') == GenOf(pc))
  {
    hide SyncStep;
    SyncGoes(s, t, ch, s');
  }

  lemma LeaderSame(s: State, s': State, t: nat)
    requires Alone(s, s', t) && LeadOk(s, t) && LeadOf(s.threads[t].pc) == LeadOf(s'.threads[t].pc)
    requires s.threads[t].pc.Syncing?
    requires LeadOf(s'.threads[t].pc).Some? ==>
               s'.threads[t].pc.Syncing? || s'.threads[t].pc == Leading(LeadOf(s'.threads[t].pc).value, Prepare)
    ensures LeadOk(s', t)
  {
  }

  lemma SyncKept(s: State, t: nat, ch: Choice, s': State)
    requires t < |s.threads| && Shared(s) && ThreadOk(s, t) && s.threads[t].pc.Syncing? && InRange(s, t)
    requires Enabled(s, t)
    requires s' == SyncStep(s, t, s.threads[t].pc.who, s.threads[t].pc.sync, ch)
    ensures Kept(s, s', t)
  {
    hide GenOk, PartOk, LocksOk, HoldersOk, AccessorOk, LeadOk, FetchOk, Evolves, SyncStep, Enabled;
    SyncLocks(s, t, ch, s');
    SyncAlone(s, t, ch, s');
    SyncIs(s, t, ch, s');
    FetchSame(s, s', t);
    AccessorSame(s, s', t);
    LeaderSame(s, s', t);
    GensSame(s, s');
    PartSame(s, s', t);
  }

  // ---- len() ----

  lemma CountIs(s: State, t: nat, s': State)
    requires t < |s.threads| && s.threads[t].pc.Counting? && s' == CountStep(s, t, s.threads[t].pc.count)
    requires s.gens != []
    ensures Alone(s, s', t) && s'.sync == s.sync && s'.list == s.list && AccessorsKept(s, s', -1)
    ensures s'.threads[t].pc.Counting?
              || (s'.threads[t].pc.Syncing? && s'.threads[t].pc.who.Counter? && s'.threads[t].pc.sync.UnlockSync?)
  {
    if s.threads[t].pc.count.ClearLocal? { ClearIs(s, t, s'); }
  }

  lemma ClearIs(s: State, t: nat, s': State)
    requires t < |s.threads| && s.threads[t].pc.Counting? && s.threads[t].pc.count.ClearLocal? && s.gens != []
    requires s' == CountStep(s, t, s.threads[t].pc.count)
    ensures Alone(s, s', t) && s'.sync == s.sync && s'.list == s.list && AccessorsKept(s, s', -1)
    ensures s'.threads[t].pc.Counting?
              || (s'.threads[t].pc.Syncing? && s'.threads[t].pc.who.Counter? && s'.threads[t].pc.sync.UnlockSync?)
  {
  }

  lemma CountKept(s: State, t: nat, s': State)
    requires t < |s.threads| && Shared(s) && ThreadOk(s, t) && s.threads[t].pc.Counting?
    requires s' == CountStep(s, t, s.threads[t].pc.count)
    ensures Kept(s, s', t)
  {
    hide GenOk, PartOk, LocksOk, HoldersOk, AccessorOk, LeadOk, FetchOk, Evolves, CountStep;
    CountIs(s, t, s');
    MoveKeeps(s, s', t);
    FetchSame(s, s', t);
    AccessorSame(s, s', t);
    FollowerSame(s, s', t);
    GensSame(s, s');
    PartSame(s, s', t);
  }

  // ---- the leader, holding every lock ----

  // What a leader's step changes: its own generation, and the published one.
  ghost predicate LeadsStep(s: State, s': State, t: nat) {
    && t < |s.threads| == |s'.threads| && s.threads[t].pc.Leading?
    && (forall v :: 0 <= v < |s.threads| && v != t ==> s'.threads[v] == s.threads[v])
    && s'.threads[t].ix == s.threads[t].ix
    && s'.sync == s.sync && s'.list == s.list && s'.accessors == s.accessors
    && var g := s.threads[t].pc.g;
       && g < |s.gens| <= |s'.gens|
       && (forall h :: 0 <= h < |s.gens| && h != g ==> s'.gens[h] == s.gens[h])
       && var a, b := s.gens[g], s'.gens[g];
          match s.threads[t].pc.lead
          case Prepare =>
            && s'.threads[t].pc == Leading(g, SetReady) && |s'.gens| == |s.gens| && b == a.(parts := b.parts)
            && b.parts.Some? && |b.parts.value| == |s.accessors|
            && forall i :: 0 <= i < |s.accessors| ==> b.parts.value[i] == 0
          case SetReady =>
            s'.threads[t].pc == Common(true, g, Outside) && |s'.gens| == |s.gens| && b == a.(ready := true)
          case Publish =>
            && s'.threads[t].pc == Leading(g, SetFinished) && b == a
            && s'.gens == if g + 1 == |s.gens| then s.gens + [Gen(None, None, false, false, false)] else s.gens
          case SetFinished =>
            s'.threads[t].pc == Syncing(Leader(g), UnlockSync(0)) && |s'.gens| == |s.gens| && b == a.(finished := true)
  }

  lemma LeadIs(s: State, t: nat, s': State)
    requires t < |s.threads| && s.threads[t].pc.Leading? && InRange(s, t)
    requires s' == LeadStep(s, t, s.threads[t].pc.g, s.threads[t].pc.lead)
    ensures LeadsStep(s, s', t)
  {
  }

  lemma LeadLocks(s: State, s': State, t: nat)
    requires LeadsStep(s, s', t) && LocksOk(s, t) && AccessorOk(s, t) && HoldersOk(s)
    ensures LocksOk(s', t) && AccessorOk(s', t) && HoldersOk(s')
  {
  }

  lemma LeadEvolves(s: State, s': State, t: nat)
    requires LeadsStep(s, s', t) && LeadOk(s, t) && LocksOk(s, t)
    ensures Evolves(s, s', t)
  {
  }

  lemma LeadGens(s: State, s': State, t: nat)
    requires LeadsStep(s, s', t) && Shared(s) && LeadOk(s, t)
    ensures forall h :: 0 <= h < |s'.gens| ==> GenOk(s', h)
  {
    hide HoldersOk;
    forall h | 0 <= h < |s'.gens|
      ensures GenOk(s', h)
    {
      if h < |s.gens| {
        assert GenOk(s, h);
      }
    }
  }

  lemma LeadLead(s: State, s': State, t: nat)
    requires LeadsStep(s, s', t) && Shared(s) && LeadOk(s, t) && FetchOk(s, t) && AccessorOk(s, t)
    ensures LeadOk(s', t) && FetchOk(s', t)
  {
    hide HoldersOk;
    assert GenOk(s, s.threads[t].pc.g);
  }

  lemma LeadPart(s: State, s': State, t: nat)
    requires LeadsStep(s, s', t) && PartOk(s, t)
    ensures PartOk(s', t)
  {
    forall g | 0 <= g < |s'.gens|
      ensures PartIs(s', t, g)
    {
      if g < |s.gens| {
        assert PartIs(s, t, g);
      }
    }
  }

  lemma LeadKept(s: State, t: nat, s': State)
    requires t < |s.threads| && Shared(s) && ThreadOk(s, t) && s.threads[t].pc.Leading? && InRange(s, t)
    requires s' == LeadStep(s, t, s.threads[t].pc.g, s.threads[t].pc.lead)
    ensures Kept(s, s', t)
  {
    hide GenOk, PartOk, LocksOk, HoldersOk, AccessorOk, LeadOk, FetchOk, Evolves, LeadStep;
    LeadIs(s, t, s');
    LeadLocks(s, s', t);
    LeadEvolves(s, s', t);
    LeadGens(s, s', t);
    LeadLead(s, s', t);
    LeadPart(s, s', t);
  }

  // ---- whoever waits has somebody to wait for ----

  // A scan that stops has seen a participant at work.
  lemma ScanStops(s: State, g: nat, k: nat)
    requires Inv(s) && g < |s.gens| && s.gens[g].parts.Some? && k < |s.gens[g].parts.value|
    requires s.gens[g].parts.value[k] == 1
    ensures k < |s.accessors| && Active(s, s.accessors[k].owner, g)
    ensures var u := s.accessors[k].owner; s.threads[u].pc.phase.Working? || s.threads[u].pc.phase.Leaving?
  {
    hide LocksOk, LeadOk, FetchOk;
    assert GenOk(s, g);
    var u := s.accessors[k].owner;
    assert ThreadOk(s, u);
    assert PartIs(s, u, g);
  }

  // The actor starts waiting, or stops being active, only if somebody else is active or the work is done.
  lemma ActorLeaves(s: State, t: nat, ch: Choice, s': State, g: nat)
    requires Takes(s, t, ch, s') && g < |s.gens| && g < |s'.gens| && t < |s'.threads|
    requires Active(s, t, g) || Stalls(s', t, g)
    ensures Active(s', t, g) || s'.gens[g].migrated || exists u: nat :: u != t && Active(s, u, g)
  {
    hide Inv;
    var pc := s.threads[t].pc;
    CommonOnly(s, t, ch, s', g);
    if pc.phase.Scanning? && pc.phase.next < |s.gens[g].parts.value| && s.gens[g].parts.value[pc.phase.next] == 1 {
      ScanStops(s, g, pc.phase.next);
    }
  }

  lemma CommonOnly(s: State, t: nat, ch: Choice, s': State, g: nat)
    requires Takes(s, t, ch, s') && t < |s'.threads|
    requires Active(s, t, g) || Stalls(s', t, g)
    ensures s.threads[t].pc.Common? && s.threads[t].pc.g == g
  {
    hide Inv, Shared, ThreadOk, WriteStep, SyncStep, CommonStep, CountStep;
    Own(s, t, ch, s');
    match s.threads[t].pc {
      case Writing(_) => OwnFetch(s, t); WriteIs(s, t, ch, s');
      case Syncing(_, _) => SyncIs(s, t, ch, s');
      case Common(_, _, _) => CommonIs(s, t, ch, s');
      case Counting(_) => HasGens(s); CountIs(s, t, s');
      case _ =>
    }
  }

  lemma HasGens(s: State)
    requires Shared(s)
    ensures s.gens != []
  {
  }

  lemma OwnFetch(s: State, t: nat)
    requires t < |s.threads| && ThreadOk(s, t)
    ensures FetchOk(s, t)
  {
  }

  lemma DrivenStays(s: State, t: nat, ch: Choice, s': State, g: nat)
    requires Takes(s, t, ch, s') && Evolves(s, s', t) && g < |s.gens|
    ensures g < |s'.gens| && Driven(s', g)
  {
    hide Shared, Takes, LocksEvolve, Step, ThreadOk;
    assert Driven(s, g) by { InvDriven(s, t, ch, s', g); }
    assert GenEvolves(s, s.gens[g], s'.gens[g], t);
    if !s'.gens[g].migrated && exists v: nat :: Stalls(s', v, g) {
      var v: nat :| Stalls(s', v, g);
      if v == t {
        ActorLeaves(s, t, ch, s', g);
      } else {
        assert Stalls(s, v, g);
        var u: nat :| Active(s, u, g);
        if u == t {
          ActorLeaves(s, t, ch, s', g);
        } else {
          assert Active(s', u, g);
        }
      }
      if u: nat :| u != t && Active(s, u, g) {
        assert Active(s', u, g);
      }
    }
  }

  lemma InvDriven(s: State, t: nat, ch: Choice, s': State, g: nat)
    requires Takes(s, t, ch, s') && g < |s.gens|
    ensures Driven(s, g)
  {
  }

  // ---- every step ----

  lemma OwnKept(s: State, t: nat, ch: Choice, s': State)
    requires Takes(s, t, ch, s')
    ensures Kept(s, s', t)
  {
    hide Inv, Enabled, InRange, Kept, ThreadOk, Shared;
    Own(s, t, ch, s');
    match s.threads[t].pc {
      case Idle => StartKept(s, t, ch, s');
      case Joining(_) => StepJoin(s, t, ch, s'); JoinKept(s, t, s');
      case Writing(_) => WriteKept(s, t, ch, s');
      case Growing(_) => GrowKept(s, t, ch, s');
      case Common(_, _, _) => CommonKept(s, t, ch, s');
      case Syncing(_, _) => SyncKept(s, t, ch, s');
      case Leading(_, _) => LeadKept(s, t, s');
      case Counting(_) => CountKept(s, t, s');
    }
  }

  lemma StepJoin(s: State, t: nat, ch: Choice, s': State)
    requires Takes(s, t, ch, s') && t < |s.threads| && s.threads[t].pc.Joining?
    ensures s.threads[t].pc.join.Enlist? ==> s.list.None?
  {
    hide Inv;
  }

  lemma StepInv(s: State, t: nat, ch: Choice, s': State)
    requires Takes(s, t, ch, s')
    ensures Inv(s') && Evolves(s, s', t)
  {
    hide Shared, ThreadOk, Evolves, Step, Driven;
    OwnKept(s, t, ch, s');
    EvolvesSizes(s, s', t);
    forall v | 0 <= v < |s'.threads|
      ensures ThreadOk(s', v)
    {
      if v != t { OthersOk(s, s', t, v); }
    }
    forall g | 0 <= g < |s'.gens|
      ensures Driven(s', g)
    {
      if g < |s.gens| { DrivenStays(s, t, ch, s', g); } else { NewDriven(s, s', t, g); }
    }
  }

  lemma EvolvesSizes(s: State, s': State, t: nat)
    requires Evolves(s, s', t)
    ensures t < |s.threads| == |s'.threads| && |s.gens| <= |s'.gens|
  {
  }

  lemma NewDriven(s: State, s': State, t: nat, g: nat)
    requires Evolves(s, s', t) && |s.gens| <= g < |s'.gens| && forall v :: 0 <= v < |s'.threads| ==> ThreadOk(s', v)
    ensures Driven(s', g)
  {
    hide LocksOk, LeadOk, PartOk, AccessorOk, LocksEvolve;
    forall v: nat
      ensures !Stalls(s', v, g)
    {
      if v < |s'.threads| {
        assert ThreadOk(s', v);
      }
    }
  }

  lemma InitInv(s: State)
    requires Init(s)
    ensures Inv(s)
  {
  }

  lemma OkInRange(s: State, t: nat)
    requires Inv(s) && t < |s.threads|
    ensures InRange(s, t)
  {
    hide LocksOk, PartOk;
    assert ThreadOk(s, t);
    var pc := s.threads[t].pc;
    if pc.Common? && pc.g < |s.gens| {
      assert GenOk(s, pc.g);
    }
  }

  ghost predicate Transition(s: State, s': State) {
    exists t: nat, ch :: Takes(s, t, ch, s') && Evolves(s, s', t)
  }

  lemma {:induction false} RunInv(run: seq<State>, i: nat)
    requires Run(run) && i < |run|
    ensures Inv(run[i])
    ensures i > 0 ==> Transition(run[i - 1], run[i])
  {
    hide Inv, Step, Enabled, Init, InRange, Evolves;
    if i == 0 {
      InitInv(run[0]);
    } else {
      RunInv(run, i - 1);
      assert Next(run[i - 1], run[i - 1 + 1]);
      var t: nat, ch :| InRange(run[i - 1], t) && Enabled(run[i - 1], t) && run[i] == Step(run[i - 1], t, ch);
      assert Takes(run[i - 1], t, ch, run[i]);
      StepInv(run[i - 1], t, ch, run[i]);
    }
  }
}
