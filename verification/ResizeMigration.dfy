// ResizeProtocol and ConcurrentMigration together: what the participants of a resize do in its working phase is
// a run of the migration. So the generation that a leader publishes is the complete new index.
module ResizeMigration {
  import opened Options
  import opened NodeCodec
  import opened ProbeIndex
  import opened Migration
  import opened ResizeProtocol
  import opened ResizeInvariant
  import opened ResizeSteps
  import M = ConcurrentMigration

  // The index of each generation, frozen once its leader holds every lock, and the size of the blocks.
  datatype Config = Config(frozen: nat -> Generation, block: nat)

  // `work` holds the migration out of each generation, once its leader has allocated the new index.
  datatype Joint = Joint(locks: State, work: map<nat, M.State>)

  // The migration of generation g as it is prepared: nobody has begun, and the new index holds anything.
  ghost predicate Fresh(c: Config, s: Joint, g: nat, m: M.State) {
    c.block >= 1 && c.frozen(g).Valid() && M.Init(c.frozen(g), m) && |m.ps| == |s.locks.accessors|
  }

  predicate AtWork(c: Config, s: Joint, g: nat, w: nat) {
    g in s.work && M.Sized(c.frozen(g), s.work[g], w) && !s.work[g].ps[w].pc.Gone?
  }

  // A participant's step of the migration, if it is not through with it.
  ghost predicate WorksOn(c: Config, s: Joint, s': Joint, g: nat, w: nat, ph: Phase, again: bool) {
    if AtWork(c, s, g, w)
    then
      var m := M.Step(c.frozen(g), c.block, s.work[g], w);
      s'.work == s.work[g := m] && (ph.Working? ==> (again <==> !m.ps[w].pc.Leaving?))
    else s'.work == s.work
  }

  ghost predicate Moves(c: Config, s: Joint, s': Joint, t: nat, ch: Choice) {
    && InRange(s.locks, t) && Enabled(s.locks, t) && s'.locks == Step(s.locks, t, ch)
    && match s.locks.threads[t].pc
       case Leading(g, Prepare) => g in s'.work && Fresh(c, s, g, s'.work[g]) && s'.work == s.work[g := s'.work[g]]
       case Common(_, g, ph) => WorksOn(c, s, s', g, s.locks.threads[t].ix.value, ph, ch.again)
       case _ => s'.work == s.work
  }

  ghost predicate JointNext(c: Config, s: Joint, s': Joint) {
    exists t: nat, ch :: Moves(c, s, s', t, ch)
  }

  ghost predicate JointRun(c: Config, run: seq<Joint>) {
    && run != [] && Init(run[0].locks) && run[0].work == map[]
    && forall i :: 0 <= i < |run| - 1 ==> JointNext(c, run[i], run[i + 1])
  }

  // ---- the invariant ----

  predicate SamePhase(ph: Phase, p: M.Pc) {
    match ph
    case Outside => p.Outside?
    case Entering => p.Entering?
    case Working => p.Claiming? || p.Busy?
    case Leaving => p.Leaving?
    case Scanning(k) => p == M.Scanning(k)
    case Setting => p.Setting?
    case Waiting => p.Waiting?
  }

  // A thread takes part in a migration once.
  predicate At(pc: Pc, g: nat, p: M.Pc) {
    if pc.Common? && pc.g == g then SamePhase(pc.phase, p) || (p.Gone? && pc.phase.Outside?) else p.Outside? || p.Gone?
  }

  // The migration out of generation g is a run of ConcurrentMigration.
  ghost predicate Underway(c: Config, g: nat, m: M.State) {
    exists run :: M.Run(c.frozen(g), c.block, run) && run[|run| - 1] == m
  }

  // It agrees with the generation's participants and its completion event.
  ghost predicate Agrees(gen: Gen, m: M.State) {
    && gen.parts.Some? && |m.ps| == |gen.parts.value| && m.doneEvent == gen.migrated
    && (forall w :: 0 <= w < |m.ps| ==> m.ps[w].state == gen.parts.value[w])
    && (forall w :: 0 <= w < |m.ps| && m.ps[w].pc.Gone? ==> m.doneEvent)
  }

  ghost predicate ThreadAt(s: Joint, g: nat, v: nat)
    requires g in s.work && v < |s.locks.threads|
  {
    var th := s.locks.threads[v];
    th.ix.Some? && th.ix.value < |s.work[g].ps| ==> At(th.pc, g, s.work[g].ps[th.ix.value].pc)
  }

  ghost predicate Coupled(c: Config, s: Joint, g: nat)
    requires g < |s.locks.gens|
  {
    s.locks.gens[g].parts.Some? ==>
      && g in s.work && Underway(c, g, s.work[g]) && Agrees(s.locks.gens[g], s.work[g])
      && forall v :: 0 <= v < |s.locks.threads| ==> ThreadAt(s, g, v)
  }

  ghost predicate JointInv(c: Config, s: Joint) {
    Inv(s.locks) && forall g :: 0 <= g < |s.locks.gens| ==> Coupled(c, s, g)
  }

  // ---- steps outside the working phase ----

  // Thread t moves, and no generation's participants or completion event change.
  ghost predicate Elsewhere(s: State, s': State, t: nat) {
    && t < |s.threads| == |s'.threads| && (forall v :: 0 <= v < |s.threads| && v != t ==> s'.threads[v] == s.threads[v])
    && |s.gens| <= |s'.gens|
    && (forall g :: 0 <= g < |s.gens| ==>
          s'.gens[g].parts == s.gens[g].parts && s'.gens[g].migrated == s.gens[g].migrated)
    && (forall g :: |s.gens| <= g < |s'.gens| ==> s'.gens[g].parts.None?)
    && var a, b := s.threads[t], s'.threads[t];
       && !a.pc.Common? && (b.pc.Common? ==> b.pc.phase.Outside?)
       && (b.ix == a.ix || (a.ix.None? && b.ix == Some(|s.accessors|)))
  }

  lemma WriteElsewhere(s: State, t: nat, ch: Choice, s': State)
    requires Takes(s, t, ch, s') && t < |s.threads| && s.threads[t].pc.Writing?
    ensures Elsewhere(s, s', t)
  {
    hide Inv, WriteStep, Enabled;
    Own(s, t, ch, s');
    WriteIs(s, t, ch, s');
  }

  lemma CountElsewhere(s: State, t: nat, ch: Choice, s': State)
    requires Takes(s, t, ch, s') && t < |s.threads| && s.threads[t].pc.Counting?
    ensures Elsewhere(s, s', t)
  {
    hide Inv, CountStep, Enabled;
    CountIs(s, t, s');
  }

  lemma SyncElsewhere(s: State, t: nat, ch: Choice, s': State)
    requires Takes(s, t, ch, s') && t < |s.threads| && s.threads[t].pc.Syncing?
    ensures Elsewhere(s, s', t)
  {
    hide Inv, SyncStep, Enabled;
    SyncAlone(s, t, ch, s');
    SyncIs(s, t, ch, s');
  }

  lemma GrowElsewhere(s: State, t: nat, ch: Choice, s': State)
    requires Takes(s, t, ch, s') && t < |s.threads| && s.threads[t].pc.Growing?
    ensures Elsewhere(s, s', t)
  {
    hide Inv, Enabled;
  }

  lemma EnterElsewhere(s: State, t: nat, ch: Choice, s': State)
    requires Takes(s, t, ch, s') && t < |s.threads| && (s.threads[t].pc.Idle? || s.threads[t].pc.Joining?)
    ensures Elsewhere(s, s', t)
  {
    hide Inv, Enabled;
    Own(s, t, ch, s');
    JoinsNew(s, t);
  }

  lemma JoinsNew(s: State, t: nat)
    requires t < |s.threads| && ThreadOk(s, t)
    ensures s.threads[t].pc.Joining? && s.threads[t].pc.join.Link? ==> s.threads[t].ix.None?
  {
  }

  lemma LeadElsewhere(s: State, t: nat, ch: Choice, s': State)
    requires Takes(s, t, ch, s') && t < |s.threads| && s.threads[t].pc.Leading? && !s.threads[t].pc.lead.Prepare?
    ensures Elsewhere(s, s', t)
  {
    hide Inv, LeadStep, Enabled;
    LeadIs(s, t, s');
  }

  lemma StepElsewhere(s: State, t: nat, ch: Choice, s': State)
    requires t < |s.threads| && Takes(s, t, ch, s') && !s.threads[t].pc.Common?
    requires s.threads[t].pc.Leading? ==> !s.threads[t].pc.lead.Prepare?
    ensures Elsewhere(s, s', t)
  {
    hide Takes, Elsewhere;
    match s.threads[t].pc {
      case Writing(_) => WriteElsewhere(s, t, ch, s');
      case Counting(_) => CountElsewhere(s, t, ch, s');
      case Syncing(_, _) => SyncElsewhere(s, t, ch, s');
      case Growing(_) => GrowElsewhere(s, t, ch, s');
      case Leading(_, _) => LeadElsewhere(s, t, ch, s');
      case _ => EnterElsewhere(s, t, ch, s');
    }
  }

  lemma PartsListed(s: State, g: nat)
    requires Inv(s) && g < |s.gens|
    ensures s.gens[g].parts.Some? ==> |s.gens[g].parts.value| <= |s.accessors|
    ensures s.gens[g].parts.None? ==> !s.gens[g].ready && !s.gens[g].migrated
  {
    assert GenOk(s, g);
  }

  lemma ElsewhereCouples(c: Config, s: Joint, s': Joint, t: nat, g: nat)
    requires Inv(s.locks) && Elsewhere(s.locks, s'.locks, t) && s'.work == s.work && g < |s'.locks.gens|
    requires g < |s.locks.gens| ==> Coupled(c, s, g)
    ensures Coupled(c, s', g)
  {
    hide Inv, Underway, Agrees;
    if g < |s.locks.gens| && s.locks.gens[g].parts.Some? {
      PartsListed(s.locks, g);
      AgreesSame(s.locks.gens[g], s'.locks.gens[g], s.work[g]);
      forall v | 0 <= v < |s'.locks.threads|
        ensures ThreadAt(s', g, v)
      {
        assert ThreadAt(s, g, v);
      }
    }
  }

  lemma AgreesSame(a: Gen, b: Gen, m: M.State)
    requires Agrees(a, m) && b.parts == a.parts && b.migrated == a.migrated
    ensures Agrees(b, m) && |m.ps| == |a.parts.value|
  {
  }

  // ---- a migration is prepared ----

  lemma PrepareIs(s: State, t: nat, ch: Choice, s': State)
    requires Takes(s, t, ch, s') && t < |s.threads| && s.threads[t].pc.Leading? && s.threads[t].pc.lead.Prepare?
    ensures LeadsStep(s, s', t) && s.gens[s.threads[t].pc.g].parts.None?
  {
    hide Inv, Enabled, LeadStep, LocksOk, AccessorOk, FetchOk, PartOk, Shared;
    Own(s, t, ch, s');
    LeadIs(s, t, s');
  }

  // Nobody takes part before the participants are listed.
  lemma NobodyIn(s: State, g: nat, v: nat)
    requires Inv(s) && g < |s.gens| && s.gens[g].parts.None? && v < |s.threads|
    ensures !(s.threads[v].pc.Common? && s.threads[v].pc.g == g)
  {
    hide LocksOk, AccessorOk, LeadOk, PartOk;
    assert ThreadOk(s, v);
    PartsListed(s, g);
  }

  lemma PrepareCouples(c: Config, s: Joint, s': Joint, t: nat, ch: Choice)
    requires Inv(s.locks) && Moves(c, s, s', t, ch)
    requires s.locks.threads[t].pc.Leading? && s.locks.threads[t].pc.lead.Prepare?
    ensures var g := s.locks.threads[t].pc.g; g < |s'.locks.gens| && Coupled(c, s', g)
  {
    hide Inv, Step, Enabled;
    var g := s.locks.threads[t].pc.g;
    PrepareIs(s.locks, t, ch, s'.locks);
    PartsListed(s.locks, g);
    var m := s'.work[g];
    assert M.Run(c.frozen(g), c.block, [m]);
    forall v | 0 <= v < |s'.locks.threads|
      ensures ThreadAt(s', g, v)
    {
      NobodyIn(s.locks, g, v);
    }
  }

  lemma PrepareOthers(c: Config, s: Joint, s': Joint, t: nat, ch: Choice, h: nat)
    requires Inv(s.locks) && Moves(c, s, s', t, ch) && h < |s.locks.gens| && Coupled(c, s, h)
    requires s.locks.threads[t].pc.Leading? && s.locks.threads[t].pc.lead.Prepare? && h != s.locks.threads[t].pc.g
    ensures h < |s'.locks.gens| && Coupled(c, s', h)
  {
    hide Inv, Step, Enabled, Underway, Agrees;
    PrepareIs(s.locks, t, ch, s'.locks);
    if s.locks.gens[h].parts.Some? {
      forall v | 0 <= v < |s'.locks.threads|
        ensures ThreadAt(s', h, v)
      {
        assert ThreadAt(s, h, v);
      }
    }
  }

  // ---- a participant's step ----

  lemma UnderwaySized(c: Config, g: nat, m: M.State)
    requires Underway(c, g, m)
    ensures c.block >= 1 && c.frozen(g).Valid() && |m.new_| == 2 * c.frozen(g).Size() > 0
    ensures LogSize(c.frozen(g).log) && LogSize(c.frozen(g).log + 1)
    ensures M.Inv(c.frozen(g), c.block, m)
  {
    hide M.Inv, M.Next, M.Init;
    var run :| M.Run(c.frozen(g), c.block, run) && run[|run| - 1] == m;
    M.RunInv(c.frozen(g), c.block, run);
    InvSized(c.frozen(g), c.block, m);
  }

  lemma InvSized(g: Generation, block: nat, m: M.State)
    requires M.Inv(g, block, m)
    ensures g.Valid() && |m.new_| == 2 * g.Size() > 0 && LogSize(g.log) && LogSize(g.log + 1)
  {
    hide M.Blocks, M.Phases;
    NextEmptyFacts(g);
  }

  lemma UnderwayNext(c: Config, g: nat, m: M.State, w: nat)
    requires Underway(c, g, m) && M.Sized(c.frozen(g), m, w) && M.Enabled(m, w)
    ensures Underway(c, g, M.Step(c.frozen(g), c.block, m, w))
  {
    hide M.Step, M.Enabled, M.Init, M.Sized;
    var run :| M.Run(c.frozen(g), c.block, run) && run[|run| - 1] == m;
    var m' := M.Step(c.frozen(g), c.block, m, w);
    var run' := run + [m'];
    assert M.Next(c.frozen(g), c.block, m, m');
    forall i | 0 <= i < |run'| - 1
      ensures M.Next(c.frozen(g), c.block, run'[i], run'[i + 1])
    {
      if i < |run| - 1 { assert M.Next(c.frozen(g), c.block, run[i], run[i + 1]); }
    }
    assert M.Run(c.frozen(g), c.block, run') && run'[|run'| - 1] == m';
  }

  // Both machines take the same phase.
  lemma SamePhaseStep(g: Generation, s: State, t: nat, ch: Choice, s': State, m: M.State, m': M.State)
    requires t < |s.threads| && s.threads[t].pc.Common? && InRange(s, t) && Enabled(s, t)
    requires var pc := s.threads[t].pc; s' == CommonStep(s, t, s.threads[t].ix.value, pc.leads, pc.g, pc.phase, ch)
    requires var pc, w := s.threads[t].pc, s.threads[t].ix.value;
             && Agrees(s.gens[pc.g], m) && w < |m.ps| == |m'.ps| && SamePhase(pc.phase, m.ps[w].pc)
             && M.Turn(g, m, m', w) && (pc.phase.Working? ==> (ch.again <==> !m'.ps[w].pc.Leaving?))
    ensures var pc, w := s.threads[t].pc, s.threads[t].ix.value;
            && t < |s'.threads| && pc.g < |s'.gens| && Agrees(s'.gens[pc.g], m')
            && At(s'.threads[t].pc, pc.g, m'.ps[w].pc)
  {
    match s.threads[t].pc.phase {
      case Scanning(_) =>
      case _ =>
    }
  }

  // Each accessor has one thread.
  lemma OneThread(s: State, t: nat, v: nat)
    requires Inv(s) && t < |s.threads| && v < |s.threads| && v != t && s.threads[t].ix.Some?
    ensures s.threads[v].ix != s.threads[t].ix
  {
    hide LocksOk, LeadOk, FetchOk, PartOk, Shared;
    assert ThreadOk(s, t) && ThreadOk(s, v);
  }

  // Where a participant stands in the migration.
  lemma Standing(c: Config, s: Joint, t: nat)
    requires Inv(s.locks) && t < |s.locks.threads| && s.locks.threads[t].pc.Common? && InRange(s.locks, t)
    requires Coupled(c, s, s.locks.threads[t].pc.g)
    ensures var g, ix := s.locks.threads[t].pc.g, s.locks.threads[t].ix;
            && g in s.work && ix.Some? && ix.value < |s.work[g].ps| && M.Sized(c.frozen(g), s.work[g], ix.value)
            && Underway(c, g, s.work[g]) && Agrees(s.locks.gens[g], s.work[g])
            && At(s.locks.threads[t].pc, g, s.work[g].ps[ix.value].pc)
  {
    hide Inv, Underway, M.Inv;
    var g := s.locks.threads[t].pc.g;
    assert ThreadAt(s, g, t);
    UnderwaySized(c, g, s.work[g]);
  }

  lemma CommonMoves(c: Config, s: Joint, s': Joint, t: nat, ch: Choice)
    requires Inv(s.locks) && Moves(c, s, s', t, ch) && s.locks.threads[t].pc.Common?
    ensures PhaseStep(s.locks, s'.locks, t)
    ensures var pc := s.locks.threads[t].pc;
            s'.locks == CommonStep(s.locks, t, s.locks.threads[t].ix.value, pc.leads, pc.g, pc.phase, ch)
  {
    hide Inv, CommonStep, Enabled, PhaseStep;
    CommonIs(s.locks, t, ch, s'.locks);
  }

  lemma WorkCouples(c: Config, s: Joint, s': Joint, t: nat, ch: Choice)
    requires Inv(s.locks) && Moves(c, s, s', t, ch) && s.locks.threads[t].pc.Common?
    requires Coupled(c, s, s.locks.threads[t].pc.g)
    requires !s.work[s.locks.threads[t].pc.g].ps[s.locks.threads[t].ix.value].pc.Gone?
    ensures var g := s.locks.threads[t].pc.g; g < |s'.locks.gens| && Coupled(c, s', g)
  {
    hide Inv, Step, CommonStep, Underway, M.Step, Agrees, SamePhase, M.Turn;
    Standing(c, s, t);
    CommonMoves(c, s, s', t, ch);
    var g, w := s.locks.threads[t].pc.g, s.locks.threads[t].ix.value;
    var m := s.work[g];
    var m' := M.Step(c.frozen(g), c.block, m, w);
    assert s'.work == s.work[g := m'];
    M.StepTurn(c.frozen(g), c.block, m, w);
    MayStep(s.locks, t, m);
    UnderwayNext(c, g, m, w);
    SamePhaseStep(c.frozen(g), s.locks, t, ch, s'.locks, m, m');
    forall v | 0 <= v < |s'.locks.threads|
      ensures ThreadAt(s', g, v)
    {
      if v != t {
        OneThread(s.locks, t, v);
        assert ThreadAt(s, g, v);
        OthersStand(c.frozen(g), m, m', w);
      }
    }
  }

  lemma MayStep(s: State, t: nat, m: M.State)
    requires t < |s.threads| && s.threads[t].pc.Common? && InRange(s, t) && Enabled(s, t)
    requires var pc, w := s.threads[t].pc, s.threads[t].ix.value;
             && Agrees(s.gens[pc.g], m) && w < |m.ps| && !m.ps[w].pc.Gone? && At(pc, pc.g, m.ps[w].pc)
    ensures M.Enabled(m, s.threads[t].ix.value) && SamePhase(s.threads[t].pc.phase, m.ps[s.threads[t].ix.value].pc)
  {
  }

  lemma OthersStand(g: Generation, m: M.State, m': M.State, w: nat)
    requires w < |m.ps| == |m'.ps| && M.Turn(g, m, m', w)
    ensures forall v :: 0 <= v < |m.ps| && v != w ==> m'.ps[v] == m.ps[v]
  {
  }

  // A thread that is through with the migration comes back only to find it done.
  lemma GoneCouples(c: Config, s: Joint, s': Joint, t: nat, ch: Choice)
    requires Inv(s.locks) && Moves(c, s, s', t, ch) && s.locks.threads[t].pc.Common?
    requires Coupled(c, s, s.locks.threads[t].pc.g)
    requires var g, ix := s.locks.threads[t].pc.g, s.locks.threads[t].ix.value;
             g in s.work && ix < |s.work[g].ps| && s.work[g].ps[ix].pc.Gone?
    ensures var g := s.locks.threads[t].pc.g; g < |s'.locks.gens| && Coupled(c, s', g)
  {
    hide Inv, Step, CommonStep, Underway, M.Step, M.Sized;
    Standing(c, s, t);
    CommonMoves(c, s, s', t, ch);
    var g := s.locks.threads[t].pc.g;
    LooksDone(s.locks, t, ch, s'.locks);
    forall v | 0 <= v < |s'.locks.threads|
      ensures ThreadAt(s', g, v)
    {
      assert ThreadAt(s, g, v);
    }
  }

  lemma LooksDone(s: State, t: nat, ch: Choice, s': State)
    requires t < |s.threads| && s.threads[t].pc.Common? && InRange(s, t)
    requires s.threads[t].pc.phase.Outside? && s.gens[s.threads[t].pc.g].migrated
    requires var pc := s.threads[t].pc; s' == CommonStep(s, t, s.threads[t].ix.value, pc.leads, pc.g, pc.phase, ch)
    ensures s'.gens == s.gens && t < |s'.threads| && !s'.threads[t].pc.Common?
  {
  }

  lemma OtherGenerations(c: Config, s: Joint, s': Joint, t: nat, ch: Choice, h: nat)
    requires Inv(s.locks) && Moves(c, s, s', t, ch) && s.locks.threads[t].pc.Common?
    requires h < |s.locks.gens| && h != s.locks.threads[t].pc.g && Coupled(c, s, h)
    ensures h < |s'.locks.gens| && Coupled(c, s', h)
  {
    hide Inv, Step, CommonStep, Underway, Agrees, Enabled, M.Step, M.Sized;
    CommonMoves(c, s, s', t, ch);
    if s.locks.gens[h].parts.Some? {
      assert s'.work[h] == s.work[h];
      forall v | 0 <= v < |s'.locks.threads|
        ensures ThreadAt(s', h, v)
      {
        assert ThreadAt(s, h, v);
      }
    }
  }

  // ---- every step ----

  lemma StepCouples(c: Config, s: Joint, s': Joint, t: nat, ch: Choice, g: nat)
    requires JointInv(c, s) && Moves(c, s, s', t, ch) && g < |s'.locks.gens|
    requires Takes(s.locks, t, ch, s'.locks)
    ensures Coupled(c, s', g)
  {
    hide Inv, Step, Enabled, Coupled, Elsewhere, Takes;
    var pc := s.locks.threads[t].pc;
    if pc.Common? {
      CommonGenerations(c, s, s', t, ch);
      if g == pc.g { OwnGeneration(c, s, s', t, ch); } else { OtherGenerations(c, s, s', t, ch, g); }
    } else if pc.Leading? && pc.lead.Prepare? {
      PrepareGenerations(s.locks, t, ch, s'.locks);
      if g == pc.g { PrepareCouples(c, s, s', t, ch); } else { PrepareOthers(c, s, s', t, ch, g); }
    } else {
      StepElsewhere(s.locks, t, ch, s'.locks);
      ElsewhereCouples(c, s, s', t, g);
    }
  }

  lemma CommonGenerations(c: Config, s: Joint, s': Joint, t: nat, ch: Choice)
    requires Inv(s.locks) && Moves(c, s, s', t, ch) && s.locks.threads[t].pc.Common?
    ensures |s'.locks.gens| == |s.locks.gens| && s.locks.threads[t].pc.g < |s.locks.gens|
  {
    hide Inv, Step, Enabled;
    CommonMoves(c, s, s', t, ch);
  }

  lemma PrepareGenerations(s: State, t: nat, ch: Choice, s': State)
    requires t < |s.threads| && Takes(s, t, ch, s') && s.threads[t].pc.Leading? && s.threads[t].pc.lead.Prepare?
    ensures |s'.gens| == |s.gens|
  {
    hide Takes;
    PrepareIs(s, t, ch, s');
  }

  lemma OwnGeneration(c: Config, s: Joint, s': Joint, t: nat, ch: Choice)
    requires Inv(s.locks) && Moves(c, s, s', t, ch) && s.locks.threads[t].pc.Common?
    requires s.locks.threads[t].pc.g < |s.locks.gens| && Coupled(c, s, s.locks.threads[t].pc.g)
    ensures s.locks.threads[t].pc.g < |s'.locks.gens| && Coupled(c, s', s.locks.threads[t].pc.g)
  {
    hide Inv, Step, Enabled, Coupled, WorksOn;
    Standing(c, s, t);
    if s.work[s.locks.threads[t].pc.g].ps[s.locks.threads[t].ix.value].pc.Gone? {
      GoneCouples(c, s, s', t, ch);
    } else {
      WorkCouples(c, s, s', t, ch);
    }
  }

  lemma JointStep(c: Config, s: Joint, s': Joint, t: nat, ch: Choice)
    requires JointInv(c, s) && Moves(c, s, s', t, ch)
    ensures JointInv(c, s') && Next(s.locks, s'.locks)
  {
    hide Inv, Step, Enabled, Coupled, Evolves, InRange;
    assert Takes(s.locks, t, ch, s'.locks);
    StepInv(s.locks, t, ch, s'.locks);
    forall g | 0 <= g < |s'.locks.gens|
      ensures Coupled(c, s', g)
    {
      StepCouples(c, s, s', t, ch, g);
    }
  }

  lemma {:induction false} JointRunInv(c: Config, run: seq<Joint>, i: nat)
    requires JointRun(c, run) && i < |run|
    ensures JointInv(c, run[i])
    ensures i > 0 ==> Next(run[i - 1].locks, run[i].locks)
  {
    hide JointInv, Moves, Init, Next;
    if i == 0 {
      JointInit(c, run[0]);
    } else {
      JointRunInv(c, run, i - 1);
      assert JointNext(c, run[i - 1], run[i - 1 + 1]);
      var t: nat, ch :| Moves(c, run[i - 1], run[i], t, ch);
      JointStep(c, run[i - 1], run[i], t, ch);
    }
  }

  lemma JointInit(c: Config, s: Joint)
    requires Init(s.locks) && s.work == map[]
    ensures JointInv(c, s)
  {
    hide Inv;
    InitInv(s.locks);
  }

  // ---- what a resize publishes ----

  // Whatever generation has its completion event set, has it set by a run of the migration, which has left the
  // complete new index: every reachable entry, probed rightly, once.
  ghost predicate Complete(g: Generation, m: M.State) {
    && g.Valid() && m.new_ == NewIndex(g) && WellFormed(m.new_, g.log + 1, g.rehash)
    && Locations(m.new_) == Locations(g.index) && M.Total(m.ps) == |M.LiveSlots(g)|
  }

  lemma MigratedIsComplete(c: Config, run: seq<Joint>, i: nat, g: nat)
    requires JointRun(c, run) && i < |run| && g < |run[i].locks.gens| && run[i].locks.gens[g].migrated
    ensures g in run[i].work && Underway(c, g, run[i].work[g]) && Complete(c.frozen(g), run[i].work[g])
  {
    hide JointRun, Inv, M.Init, M.Next;
    JointRunInv(c, run, i);
    var s := run[i];
    PartsListed(s.locks, g);
    assert Coupled(c, s, g);
    var m := s.work[g];
    var work :| M.Run(c.frozen(g), c.block, work) && work[|work| - 1] == m;
    M.CompletionIsSafe(c.frozen(g), c.block, work);
    UnderwaySized(c, g, m);
  }

  // A leader about to publish, and any generation that was replaced, has the complete new index.
  lemma PublishedIsComplete(c: Config, run: seq<Joint>, i: nat, g: nat)
    requires JointRun(c, run) && i < |run| && g < |run[i].locks.gens|
    requires g + 1 < |run[i].locks.gens| ||
             exists t :: 0 <= t < |run[i].locks.threads| && run[i].locks.threads[t].pc == Leading(g, Publish)
    ensures g in run[i].work && Complete(c.frozen(g), run[i].work[g])
  {
    hide JointRun, Inv, Complete, Coupled;
    JointRunInv(c, run, i);
    ReplacedIsMigrated(run[i].locks, g);
    MigratedIsComplete(c, run, i, g);
  }

  lemma ReplacedIsMigrated(s: State, g: nat)
    requires Inv(s) && g < |s.gens|
    requires g + 1 < |s.gens| || exists t :: 0 <= t < |s.threads| && s.threads[t].pc == Leading(g, Publish)
    ensures s.gens[g].migrated
  {
    hide LocksOk, AccessorOk, FetchOk, PartOk, Driven;
    if g + 1 < |s.gens| {
      assert GenOk(s, g);
    } else {
      var t :| 0 <= t < |s.threads| && s.threads[t].pc == Leading(g, Publish);
      assert ThreadOk(s, t);
    }
  }

  // Joining the two machines holds nobody up: a thread that can step in ResizeProtocol can step here, if what it
  // is going to migrate is an index of a size that the source can handle.
  lemma NobodyHeldUp(c: Config, s: Joint, t: nat, ch: Choice) returns (again: bool, s': Joint)
    requires InRange(s.locks, t) && Enabled(s.locks, t)
    requires var pc := s.locks.threads[t].pc;
             pc.Leading? && pc.lead.Prepare? ==> c.block >= 1 && c.frozen(pc.g).Valid()
    ensures Moves(c, s, s', t, ch.(again := again))
    ensures s.locks.threads[t].pc.Common? || again == ch.again
  {
    hide Step, Enabled, M.Step;
    var pc := s.locks.threads[t].pc;
    again := ch.again;
    var work := s.work;
    if pc.Common? && AtWork(c, s, pc.g, s.locks.threads[t].ix.value) {
      var w := s.locks.threads[t].ix.value;
      var m := M.Step(c.frozen(pc.g), c.block, s.work[pc.g], w);
      again := !m.ps[w].pc.Leaving?;
      work := s.work[pc.g := m];
    } else if pc.Leading? && pc.lead.Prepare? {
      var n := 2 * c.frozen(pc.g).Size();
      var m := M.State(seq(n, _ => Empty), 0, false, seq(|s.locks.accessors|, _ => M.Participant(M.Outside, 0, 0)),
          map[], {});
      work := s.work[pc.g := m];
    }
    s' := Joint(Step(s.locks, t, ch.(again := again)), work);
  }
}
