// What deletion leaves behind: every node of the newest index refers to a live entry, but for those whose deleter
// is about to write the tombstone.
module LiveNodes {
  import opened Options
  import opened ProbeIndex
  import opened DictMachine
  import opened DictInvariant
  import opened DictSteps
  import opened StepInvariant

  function Newest(s: State): seq<Slot>
    requires s.metas != []
  {
    s.metas[Current(s)].index
  }

  predicate Buries(s: State, u: nat, x: nat) {
    u < |s.threads| && s.threads[u].pc.Bury? && s.threads[u].pc.x == x
  }

  ghost predicate LiveOrBuried(s: State, x: nat) {
    Live(s, x) || exists u: nat :: Buries(s, u, x)
  }

  ghost predicate Clean(s: State) {
    s.metas != [] && forall x :: x in Locations(Newest(s)) ==> LiveOrBuried(s, x)
  }

  // ---- steps ----

  // Thread t does not touch the newest index or the entries, and buries nothing before or after.
  ghost predicate Aside(s: State, s': State, t: nat) {
    && t < |s.threads| == |s'.threads| && (forall u :: 0 <= u < |s.threads| && u != t ==> s'.threads[u] == s.threads[u])
    && !s.threads[t].pc.Bury? && s.metas != [] && s'.metas != [] && Newest(s') == Newest(s)
    && s.published <= s'.published
    && forall x :: x in s.published && x in s.entries ==> x in s'.entries && s'.entries[x].value == s.entries[x].value
  }

  lemma AsideKeeps(s: State, s': State, t: nat)
    requires Aside(s, s', t) && Clean(s)
    ensures Clean(s')
  {
    forall x | x in Locations(Newest(s'))
      ensures LiveOrBuried(s', x)
    {
      assert LiveOrBuried(s, x);
      if !Live(s, x) {
        var u: nat :| Buries(s, u, x);
        assert Buries(s', u, x);
      }
    }
  }

  lemma QuietAside(s: State, s': State, t: nat)
    requires Quiet(s, s', t) && !s.threads[t].pc.Bury? && s.metas != []
    ensures Aside(s, s', t)
  {
  }

  lemma GotoAside(s: State, t: nat, pc: Pc)
    requires t < |s.threads| && !s.threads[t].pc.Bury? && s.metas != []
    ensures Aside(s, Goto(s, t, pc), t)
  {
  }

  // A step that only looks moves on.
  lemma ProbeJumps(c: Config, s: State, t: nat, ch: Choice, s': State)
    requires Takes(c, s, t, ch, s') && (s.threads[t].pc.Probe? || s.threads[t].pc.Load?)
    ensures t < |s'.threads| && s' == Goto(s, t, s'.threads[t].pc)
  {
    hide Inv, Step, Enabled, ProbeNext;
    if s.threads[t].pc.Probe? { ProbeIs(c, s, t, ch, s'); } else { LoadIs(c, s, t, ch, s'); }
  }

  lemma CompareJumps(c: Config, s: State, t: nat, ch: Choice, s': State)
    requires Takes(c, s, t, ch, s') && (s.threads[t].pc.Compare? || s.threads[t].pc.Reload?)
    ensures t < |s'.threads| && s' == Goto(s, t, s'.threads[t].pc)
  {
    hide Inv, Step, Enabled, WithValue;
    if s.threads[t].pc.Compare? { CompareIs(c, s, t, ch, s'); } else { ReloadIs(c, s, t, ch, s'); }
  }

  lemma LookAside(c: Config, s: State, t: nat, ch: Choice, s': State)
    requires t < |s.threads| && Takes(c, s, t, ch, s') && s.metas != []
    requires var pc := s.threads[t].pc; pc.Probe? || pc.Load? || pc.Compare? || pc.Reload?
    ensures Aside(s, s', t)
  {
    hide Takes, Aside, Goto;
    if s.threads[t].pc.Probe? || s.threads[t].pc.Load? {
      ProbeJumps(c, s, t, ch, s');
    } else {
      CompareJumps(c, s, t, ch, s');
    }
    GotoAside(s, t, s'.threads[t].pc);
  }

  lemma WaitAside(c: Config, s: State, t: nat, ch: Choice, s': State)
    requires Takes(c, s, t, ch, s') && s.metas != [] && (Locks(s.threads[t].pc) || Waits(s.threads[t].pc))
    ensures Aside(s, s', t)
  {
    hide Inv, Step, Enabled, Quiet, Shared, LinInv, ProbeInv;
    Own(c, s, t, ch, s');
    if s.threads[t].pc.TryLock? || s.threads[t].pc.Block? {
      LocksQuiet(c, s, t, ch, s');
    } else if Locks(s.threads[t].pc) {
      UnlocksQuiet(c, s, t, ch, s');
    } else {
      WaitsQuiet(c, s, t, ch, s');
    }
    QuietAside(s, s', t);
  }

  lemma EnterAside(c: Config, s: State, t: nat, ch: Choice, s': State)
    requires Takes(c, s, t, ch, s') && s.metas != []
    requires var pc := s.threads[t].pc; pc.Idle? || pc.Fetch? || pc.Check? || pc.Elect?
    ensures Aside(s, s', t)
  {
    hide Inv, Enabled;
  }

  lemma SyncAside(c: Config, s: State, t: nat, ch: Choice, s': State)
    requires t < |s.threads| && Takes(c, s, t, ch, s') && s.metas != []
    requires s.threads[t].pc.Lead? || s.threads[t].pc.Release?
    ensures Aside(s, s', t)
  {
    hide Takes, Shared, LockInv, LinInv, ProbeInv, Quiet, LeadStep, ReleaseStep, Aside;
    Own(c, s, t, ch, s');
    if s.threads[t].pc.Lead? {
      LeadIs(c, s, t, ch, s');
      LeadQuiet(s, t, s');
    } else {
      ReleaseIs(c, s, t, ch, s');
      ReleaseQuiet(s, t, s');
    }
    QuietAside(s, s', t);
  }

  // Reserving writes an entry that is not published.
  lemma ReserveAside(c: Config, s: State, t: nat, ch: Choice, s': State)
    requires Takes(c, s, t, ch, s') && s.metas != [] && s.threads[t].pc.Reserve?
    ensures Aside(s, s', t)
  {
    hide Inv;
  }

  // A value is stored, or the key dies and is going to be buried.
  lemma SwapCleans(c: Config, s: State, t: nat, ch: Choice, s': State)
    requires t < |s.threads| && Takes(c, s, t, ch, s') && s.threads[t].pc.Swap? && Clean(s)
    ensures Clean(s')
  {
    hide Inv, Enabled, Step, Clean;
    SwapIs(c, s, t, ch, s');
    SwapStepCleans(s, t, s');
  }

  lemma SwapStepCleans(s: State, t: nat, s': State)
    requires t < |s.threads| && s.threads[t].pc.Swap? && Clean(s)
    requires var pc := s.threads[t].pc; s' == SwapStep(s, t, pc.op, pc.g, pc.distance, pc.loc, pc.x, pc.v)
    ensures Clean(s')
  {
    forall x | x in Locations(Newest(s'))
      ensures LiveOrBuried(s', x)
    {
      assert LiveOrBuried(s, x);
      if s'.threads[t].pc.Bury? && x == s.threads[t].pc.x {
        assert Buries(s', t, x);
      } else if !Live(s, x) {
        var u: nat :| Buries(s, u, x);
        assert Buries(s', u, x);
      }
    }
  }

  // The new node refers to a live entry.
  lemma PublishCleans(c: Config, s: State, t: nat, ch: Choice, s': State)
    requires t < |s.threads| && Takes(c, s, t, ch, s') && s.threads[t].pc.Publish? && Clean(s)
    ensures Clean(s')
  {
    hide Inv, Enabled, Step, Clean, Shared, LinInv, PublishStep, Skipped, Tracked;
    Own(c, s, t, ch, s');
    PublishIs(c, s, t, ch, s');
    PublishStepCleans(c, s, t, s');
  }

  lemma PublishStepCleans(c: Config, s: State, t: nat, s': State)
    requires Shaped(s) && t < |s.threads| && s.threads[t].pc.Publish? && Clean(s)
    requires var pc := s.threads[t].pc;
             && pc.g + 1 == |s.metas| && pc.op.CompareAndSet?
             && pc.entry in s.entries && s.entries[pc.entry].value.Some?
             && s' == PublishStep(c, s, t, pc.op, pc.g, pc.distance, pc.entry)
    ensures Clean(s')
  {
    hide SlotNo;
    forall x | x in Locations(Newest(s'))
      ensures LiveOrBuried(s', x)
    {
      if x == s.threads[t].pc.entry && x in s'.published {
        assert Live(s', x);
      } else {
        var p :| 0 <= p < |Newest(s')| && Newest(s')[p].Node? && Newest(s')[p].index == x;
        assert Newest(s)[p] == Newest(s')[p];
        assert LiveOrBuried(s, x);
        if !Live(s, x) {
          var u: nat :| Buries(s, u, x);
          assert Buries(s', u, x);
        }
      }
    }
  }

  // The dead entry's node becomes a tombstone: it was the only one.
  lemma BuryCleans(c: Config, s: State, t: nat, ch: Choice, s': State)
    requires t < |s.threads| && Takes(c, s, t, ch, s') && s.threads[t].pc.Bury? && Clean(s)
    ensures Clean(s')
  {
    hide Inv, Enabled, Step, Clean, LinInv, BuryStep, MapOk, EntriesOk, BuryDistinct;
    Own(c, s, t, ch, s');
    BuryIs(c, s, t, ch, s');
    assert IndexOk(c, s, s.threads[t].pc.g);
    BuryStepCleans(c, s, t, s');
  }

  lemma BuryStepCleans(c: Config, s: State, t: nat, s': State)
    requires Shaped(s) && t < |s.threads| && s.threads[t].pc.Bury? && Clean(s)
    requires var pc := s.threads[t].pc;
             && pc.g + 1 == |s.metas| && Distinct(s.metas[pc.g].index)
             && s' == BuryStep(c, s, t, pc.op, pc.g, pc.distance, pc.x)
             && var slot := s.metas[pc.g].index[SlotNo(c, s, pc.op.key, pc.g, pc.distance)];
                slot.Node? && slot.index == pc.x
    ensures Clean(s')
  {
    hide SlotNo;
    var pc := s.threads[t].pc;
    var p := SlotNo(c, s, pc.op.key, pc.g, pc.distance);
    LocationsLess(Newest(s), p);
    forall x | x in Locations(Newest(s'))
      ensures LiveOrBuried(s', x)
    {
      assert x != pc.x && LiveOrBuried(s, x);
      if !Live(s, x) {
        var u: nat :| Buries(s, u, x);
        assert Buries(s', u, x);
      }
    }
  }

  // While a leader holds every lock nobody is burying, so what it migrates is live.
  lemma MigratingCleans(c: Config, s: State, t: nat, ch: Choice, s': State)
    requires t < |s.threads| && Takes(c, s, t, ch, s') && s.threads[t].pc.Migrating? && Clean(s)
    ensures Clean(s')
  {
    hide Inv, Step, LinInv, ProbeInv, Shared;
    Own(c, s, t, ch, s');
    forall u: nat, x
      ensures !Buries(s, u, x)
    {
      if Buries(s, u, x) {
        LocalLock(c, s, u);
        assert false;
      }
    }
    PublishesIndex(c, s, t, ch, s');
    forall x | x in Locations(Newest(s'))
      ensures LiveOrBuried(s', x)
    {
      assert LiveOrBuried(s, x);
    }
  }

  lemma LocalLock(c: Config, s: State, u: nat)
    requires Inv(c, s) && u < |s.threads|
    ensures LockInv(s, u)
  {
    hide Shared, LinInv, ProbeInv, LockInv;
    assert Local(c, s, u);
  }

  lemma PublishesIndex(c: Config, s: State, t: nat, ch: Choice, s': State)
    requires Takes(c, s, t, ch, s') && s.threads[t].pc.Migrating? && LockInv(s, t)
    ensures s'.metas != [] && s.metas != [] && Locations(Newest(s')) == Locations(Newest(s))
    ensures s'.entries == s.entries && s'.published == s.published
  {
    hide Inv, WellFormed;
  }

  lemma StepCleans(c: Config, s: State, t: nat, ch: Choice, s': State)
    requires t < |s.threads| && Takes(c, s, t, ch, s') && Clean(s)
    ensures Clean(s')
  {
    hide Takes, Aside, Clean, Locks, Waits;
    HasMetas(s);
    match s.threads[t].pc {
      case Swap(_, _, _, _, _, _) => SwapCleans(c, s, t, ch, s');
      case Publish(_, _, _, _) => PublishCleans(c, s, t, ch, s');
      case Bury(_, _, _, _) => BuryCleans(c, s, t, ch, s');
      case Migrating(_, _) => MigratingCleans(c, s, t, ch, s');
      case _ => OtherAside(c, s, t, ch, s'); AsideKeeps(s, s', t);
    }
  }

  lemma HasMetas(s: State)
    requires Clean(s)
    ensures s.metas != []
  {
  }

  lemma OtherAside(c: Config, s: State, t: nat, ch: Choice, s': State)
    requires t < |s.threads| && Takes(c, s, t, ch, s') && s.metas != []
    requires var pc := s.threads[t].pc; !pc.Swap? && !pc.Publish? && !pc.Bury? && !pc.Migrating?
    ensures Aside(s, s', t)
  {
    hide Takes, Aside;
    match s.threads[t].pc {
      case Probe(_, _, _, _) => LookAside(c, s, t, ch, s');
      case Load(_, _, _, _, _) => LookAside(c, s, t, ch, s');
      case Compare(_, _, _, _, _, _) => LookAside(c, s, t, ch, s');
      case Reload(_, _, _, _, _) => LookAside(c, s, t, ch, s');
      case Reserve(_, _) => ReserveAside(c, s, t, ch, s');
      case Lead(_, _, _) => SyncAside(c, s, t, ch, s');
      case Release(_, _) => SyncAside(c, s, t, ch, s');
      case Idle => EnterAside(c, s, t, ch, s');
      case Fetch(_) => EnterAside(c, s, t, ch, s');
      case Check(_, _) => EnterAside(c, s, t, ch, s');
      case Elect(_, _) => EnterAside(c, s, t, ch, s');
      case _ => WaitAside(c, s, t, ch, s');
    }
  }

  lemma InitClean(c: Config, s: State)
    requires Init(c, s)
    ensures Clean(s)
  {
    hide WellFormed;
  }

  lemma {:induction false} RunClean(c: Config, run: seq<State>, i: nat)
    requires GoodConfig(c) && Run(c, run) && i < |run|
    ensures Clean(run[i])
  {
    hide Run, Inv, Takes, Evolves, Clean;
    RunInv(c, run, i);
    if i == 0 {
      Starts(c, run);
      InitClean(c, run[0]);
    } else {
      RunClean(c, run, i - 1);
      var t: nat, ch :| t < |run[i - 1].threads| && Takes(c, run[i - 1], t, ch, run[i])
          && Evolves(run[i - 1], run[i], t);
      StepCleans(c, run[i - 1], t, ch, run[i]);
    }
  }

  lemma Starts(c: Config, run: seq<State>)
    requires Run(c, run)
    ensures Init(c, run[0])
  {
    hide Init;
  }

  // ---- what the index holds ----

  // Whenever nobody is between a delete's effect and its tombstone, the newest index refers to the live entries of
  // the map's keys, one for each, and to nothing else.
  lemma IndexIsMap(c: Config, run: seq<State>, i: nat)
    requires GoodConfig(c) && Run(c, run) && i < |run|
    requires forall t :: 0 <= t < |run[i].threads| ==> !run[i].threads[t].pc.Bury?
    ensures run[i].metas != [] && run[i].at.Keys == run[i].abs.Keys
    ensures forall x :: x in Locations(Newest(run[i])) <==> exists k :: k in run[i].at && run[i].at[k] == x
    ensures forall k :: k in run[i].at ==>
              && run[i].at[k] in run[i].entries && run[i].entries[run[i].at[k]].key == k
              && run[i].entries[run[i].at[k]].value == Some(run[i].abs[k])
  {
    hide Run, WellFormed, FilledOk, LockInv, LinInv, ProbeInv, EntriesOk, BuryDistinct;
    RunInv(c, run, i);
    RunClean(c, run, i);
    var s := run[i];
    forall x | x in Locations(Newest(s))
      ensures exists k :: k in s.at && s.at[k] == x
    {
      assert LiveOrBuried(s, x);
      assert s.at[s.entries[x].key] == x;
    }
  }
}
