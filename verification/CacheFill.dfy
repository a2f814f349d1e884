// AtomicCache: the fill protocol over an AtomicDict (atomic_cache.py). A get or compare-and-set on the dict
// is one step, which JointLinearizability.JointLinearizableIff justifies: the dict starts with no items. Cache
// entries are compared by identity.
module CacheFill {
  import opened Options

  type Key(==, !new)
  type Outcome(==, !new)        // a value, or the exception that fill raised

  // A _CacheEntry; the number is its identity.
  datatype Item = Reservation(id: nat) | Filled(id: nat, outcome: Outcome) | Tombstone

  // Whether the cache has a TTL, and whether anybody calls invalidate.
  datatype Config = Config(ttl: bool, invalidates: bool)

  datatype Pc =
    | Idle
    | Get(key: Key)
    | Reserve(key: Key, current: Option<Item>)          // _do_fill: CAS current -> a new reservation
    | Refetch(key: Key)                                 // that CAS failed: get again
    | Fill(key: Key, id: nat)                           // call fill
    | Store(key: Key, id: nat, outcome: Outcome)        // CAS reservation -> entry
    | SetReady(key: Key, id: nat, entry: Item)
    | Wait(key: Key, id: nat)
    | Return(key: Key, entry: Item)                     // __getitem__ returns or raises this entry's outcome
    | Failed(key: Key)                                  // the CAS after the fill failed, or a key vanished
    | InvalidateGet(key: Key)
    | InvalidateWait(key: Key, id: nat)
    | InvalidateSwap(key: Key, found: Item)

  // `fills` counts the calls of fill and `outcomes` keeps their results; no step reads them.
  datatype State = State(cache: map<Key, Item>, ready: set<nat>, nextId: nat, threads: seq<Pc>, fills: map<Key, nat>,
      outcomes: map<Key, Outcome>)

  // What the environment chooses: the call, what fill returns, whether an entry has expired.
  datatype Choice = Choice(key: Key, invalidate: bool, outcome: Outcome, expired: bool)

  function Lookup(s: State, k: Key): Option<Item> {
    if k in s.cache then Some(s.cache[k]) else None
  }

  function Fills(s: State, k: Key): nat {
    if k in s.fills then s.fills[k] else 0
  }

  function Goto(s: State, t: nat, pc: Pc): State
    requires t < |s.threads|
  {
    s.(threads := s.threads[t := pc])
  }

  // _not_contains
  predicate NotContains(c: Config, e: Option<Item>, ch: Choice) {
    e.None? || e.value.Tombstone? || (e.value.Filled? && c.ttl && ch.expired)
  }

  // The rest of __getitem__'s loop, with the entry at hand.
  function Judge(k: Key, e: Item): Pc {
    if e.Reservation? then Wait(k, e.id) else Return(k, e)
  }

  predicate Enabled(s: State, t: nat)
    requires t < |s.threads|
  {
    match s.threads[t]
    case Wait(_, id) => id in s.ready
    case InvalidateWait(_, id) => id in s.ready
    case _ => true
  }

  function Step(c: Config, s: State, t: nat, ch: Choice): State
    requires t < |s.threads|
  {
    match s.threads[t]
    case Idle => Goto(s, t, if c.invalidates && ch.invalidate then InvalidateGet(ch.key) else Get(ch.key))
    case Get(k) =>
      var e := Lookup(s, k);
      Goto(s, t, if NotContains(c, e, ch) then Reserve(k, e) else Judge(k, e.value))
    case Reserve(k, current) =>
      if Lookup(s, k) == current
      then Goto(s.(cache := s.cache[k := Reservation(s.nextId)], nextId := s.nextId + 1), t, Fill(k, s.nextId))
      else Goto(s, t, Refetch(k))
    case Refetch(k) => Goto(s, t, if k in s.cache then Judge(k, s.cache[k]) else Failed(k))
    case Fill(k, id) =>
      Goto(s.(fills := s.fills[k := Fills(s, k) + 1], outcomes := s.outcomes[k := ch.outcome]), t,
          Store(k, id, ch.outcome))
    case Store(k, id, o) =>
      if Lookup(s, k) == Some(Reservation(id))
      then Goto(s.(cache := s.cache[k := Filled(s.nextId, o)], nextId := s.nextId + 1), t,
          SetReady(k, id, Filled(s.nextId, o)))
      else Goto(s, t, Failed(k))
    case SetReady(k, id, e) => Goto(s.(ready := s.ready + {id}), t, Return(k, e))
    case Wait(k, _) => Goto(s, t, Get(k))
    case Return(_, _) => Goto(s, t, Idle)
    case Failed(_) => Goto(s, t, Idle)
    case InvalidateGet(k) =>
      Goto(s, t, if k !in s.cache then Idle
                 else if s.cache[k].Reservation? then InvalidateWait(k, s.cache[k].id)
                 else InvalidateSwap(k, s.cache[k]))
    case InvalidateWait(k, _) => Goto(s, t, InvalidateGet(k))
    case InvalidateSwap(k, current) =>
      if Lookup(s, k) == Some(current) then Goto(s.(cache := s.cache[k := Tombstone]), t, Idle)
      else Goto(s, t, InvalidateGet(k))
  }

  predicate Init(s: State) {
    && s.cache == map[] && s.ready == {} && s.fills == map[] && s.outcomes == map[]
    && forall t :: 0 <= t < |s.threads| ==> s.threads[t].Idle?
  }

  ghost predicate Next(c: Config, s: State, s': State) {
    exists t: nat, ch :: t < |s.threads| && Enabled(s, t) && s' == Step(c, s, t, ch)
  }

  ghost predicate Run(c: Config, run: seq<State>) {
    run != [] && Init(run[0]) && forall i :: 0 <= i < |run| - 1 ==> Next(c, run[i], run[i + 1])
  }

  // ---- reservations ----

  // Thread t made reservation id, for key k, and has not replaced it yet.
  predicate Makes(s: State, t: nat, k: Key, id: nat) {
    t < |s.threads| && (s.threads[t].Fill? || s.threads[t].Store?) && s.threads[t].key == k && s.threads[t].id == id
  }

  // Thread t is going to set the event of reservation id.
  predicate Serves(s: State, t: nat, id: nat) {
    t < |s.threads| && (s.threads[t].Fill? || s.threads[t].Store? || s.threads[t].SetReady?) && s.threads[t].id == id
  }

  ghost predicate Served(s: State, id: nat) {
    id < s.nextId && (id in s.ready || exists t: nat :: Serves(s, t, id))
  }

  ghost predicate PcOk(s: State, t: nat)
    requires t < |s.threads|
  {
    match s.threads[t]
    case Reserve(k, current) => current.Some? ==> !current.value.Reservation? && k in s.cache
    case Refetch(k) => k in s.cache
    case Fill(k, id) => id < s.nextId && id !in s.ready && Lookup(s, k) == Some(Reservation(id))
    case Store(k, id, _) => id < s.nextId && id !in s.ready && Lookup(s, k) == Some(Reservation(id))
    case SetReady(k, id, e) => id < s.nextId && id !in s.ready && e.Filled? && k in s.cache
    case Wait(k, id) => Served(s, id) && k in s.cache
    case Return(k, e) => !e.Reservation? && k in s.cache
    case Failed(_) => false
    case InvalidateWait(k, id) => Served(s, id) && k in s.cache
    case InvalidateSwap(k, current) => !current.Reservation? && k in s.cache
    case _ => true
  }

  ghost predicate Inv(s: State) {
    && (forall id :: id in s.ready ==> id < s.nextId)
    && (forall t :: 0 <= t < |s.threads| ==> PcOk(s, t))
    && (forall t: nat, u: nat, id :: Serves(s, t, id) && Serves(s, u, id) ==> t == u)
    && (forall k :: k in s.cache && s.cache[k].Reservation? ==> exists t: nat :: Makes(s, t, k, s.cache[k].id))
  }

  // What a step of thread t may do: a reservation is replaced only by the thread that made it, a key never
  // vanishes, and an event stays set.
  ghost predicate Evolves(s: State, s': State, t: nat) {
    && t < |s.threads| == |s'.threads| && s.nextId <= s'.nextId && s.ready <= s'.ready
    && (forall u :: 0 <= u < |s.threads| && u != t ==> s'.threads[u] == s.threads[u])
    && (forall k :: k in s.cache ==> k in s'.cache)
    && (forall k :: k in s.cache && s.cache[k].Reservation? && s'.cache[k] != s.cache[k] ==>
          Makes(s, t, k, s.cache[k].id))
    && (forall id :: id in s'.ready && id !in s.ready ==> Serves(s, t, id) && id < s.nextId)
    && (forall id: nat :: Serves(s, t, id) ==> Serves(s', t, id) || id in s'.ready)
    && (forall id: nat :: Serves(s', t, id) ==> Serves(s, t, id) || id >= s.nextId)
  }

  lemma StepStores(c: Config, s: State, t: nat, ch: Choice, s': State)
    requires t < |s.threads| && PcOk(s, t) && s' == Step(c, s, t, ch)
    ensures forall k :: k in s.cache ==> k in s'.cache
    ensures forall k :: k in s.cache && s.cache[k].Reservation? && s'.cache[k] != s.cache[k] ==>
              Makes(s, t, k, s.cache[k].id)
  {
  }

  lemma StepEvolves(c: Config, s: State, t: nat, ch: Choice, s': State)
    requires t < |s.threads| && PcOk(s, t) && s' == Step(c, s, t, ch)
    ensures Evolves(s, s', t)
  {
    StepStores(c, s, t, ch, s');
  }

  lemma ServedStays(s: State, s': State, t: nat, id: nat)
    requires Evolves(s, s', t) && Served(s, id)
    ensures Served(s', id)
  {
    if id !in s.ready {
      var u: nat :| Serves(s, u, id);
      assert u != t ==> Serves(s', u, id);
    }
  }

  lemma OthersOk(s: State, s': State, t: nat, u: nat)
    requires Evolves(s, s', t) && Inv(s) && u < |s.threads| && u != t
    ensures PcOk(s', u)
  {
    assert PcOk(s, u);
    var pc := s.threads[u];
    if pc.Wait? || pc.InvalidateWait? {
      ServedStays(s, s', t, pc.id);
    }
    if pc.Fill? || pc.Store? || pc.SetReady? {
      assert Serves(s, u, pc.id);
      assert !Serves(s, t, pc.id);
      assert pc.Fill? || pc.Store? ==> !Makes(s, t, pc.key, pc.id);
    }
  }

  lemma OwnOk(c: Config, s: State, t: nat, ch: Choice, s': State)
    requires t < |s.threads| && Inv(s) && Enabled(s, t) && s' == Step(c, s, t, ch) && Evolves(s, s', t)
    ensures PcOk(s', t)
  {
    assert PcOk(s, t);
    var pc := s.threads[t];
    if (pc.Get? || pc.Refetch? || pc.InvalidateGet?) && pc.key in s.cache && s.cache[pc.key].Reservation? {
      var u: nat :| Makes(s, u, pc.key, s.cache[pc.key].id);
      assert PcOk(s, u) && Serves(s, u, s.cache[pc.key].id);
      ServedStays(s, s', t, s.cache[pc.key].id);
    }
  }

  lemma ReservationsKept(c: Config, s: State, t: nat, ch: Choice, s': State, k: Key)
    requires t < |s.threads| && Inv(s) && s' == Step(c, s, t, ch) && Evolves(s, s', t) && PcOk(s', t)
    requires k in s'.cache && s'.cache[k].Reservation?
    ensures exists u: nat :: Makes(s', u, k, s'.cache[k].id)
  {
    assert PcOk(s, t);
    if k in s.cache && s.cache[k] == s'.cache[k] {
      var u: nat :| Makes(s, u, k, s.cache[k].id);
      assert u != t ==> Makes(s', u, k, s.cache[k].id);
      assert u == t ==> Makes(s', t, k, s.cache[k].id);
    } else {
      assert Makes(s', t, k, s'.cache[k].id);
    }
  }

  lemma StepInv(c: Config, s: State, t: nat, ch: Choice, s': State)
    requires t < |s.threads| && Inv(s) && Enabled(s, t) && s' == Step(c, s, t, ch)
    ensures Inv(s') && Evolves(s, s', t)
  {
    hide PcOk, Step;
    assert PcOk(s, t);
    StepEvolves(c, s, t, ch, s');
    OwnOk(c, s, t, ch, s');
    forall u | 0 <= u < |s'.threads|
      ensures PcOk(s', u)
    {
      if u != t { OthersOk(s, s', t, u); }
    }
    forall k | k in s'.cache && s'.cache[k].Reservation?
      ensures exists u: nat :: Makes(s', u, k, s'.cache[k].id)
    {
      ReservationsKept(c, s, t, ch, s', k);
    }
    forall u: nat, v: nat, id | Serves(s', u, id) && Serves(s', v, id)
      ensures u == v
    {
      ServesOnce(s, s', t, u, v, id);
    }
  }

  lemma ServesOnce(s: State, s': State, t: nat, u: nat, v: nat, id: nat)
    requires Evolves(s, s', t) && Inv(s) && Serves(s', u, id) && Serves(s', v, id)
    ensures u == v
  {
    assert u != t ==> Serves(s, u, id) && PcOk(s, u);
    assert v != t ==> Serves(s, v, id) && PcOk(s, v);
  }

  lemma {:induction false} RunInv(c: Config, run: seq<State>, i: nat)
    requires Run(c, run) && i < |run|
    ensures Inv(run[i])
  {
    hide Step, PcOk, Evolves;
    if i == 0 {
      InitInv(run[0]);
    } else {
      RunInv(c, run, i - 1);
      assert Next(c, run[i - 1], run[i - 1 + 1]);
      var t: nat, ch :| t < |run[i - 1].threads| && Enabled(run[i - 1], t) && run[i] == Step(c, run[i - 1], t, ch);
      StepInv(c, run[i - 1], t, ch, run[i]);
    }
  }

  lemma InitInv(s: State)
    requires Init(s)
    ensures Inv(s)
  {
  }

  // In every run, with a TTL and with invalidations: a reservation is replaced only by the thread that made
  // it, so the CAS after the fill never fails.
  lemma StoreCasSucceeds(c: Config, run: seq<State>, i: nat, t: nat, k: Key, id: nat, o: Outcome)
    requires Run(c, run) && i < |run| && t < |run[i].threads| && run[i].threads[t] == Store(k, id, o)
    ensures Lookup(run[i], k) == Some(Reservation(id))
  {
    RunInv(c, run, i);
    assert PcOk(run[i], t);
  }

  // And whoever waits for a reservation is going to be woken: its event is set, or its maker is on its way.
  lemma WaitersServed(c: Config, run: seq<State>, i: nat, t: nat)
    requires Run(c, run) && i < |run| && t < |run[i].threads|
    requires run[i].threads[t].Wait? || run[i].threads[t].InvalidateWait?
    ensures Enabled(run[i], t)
              || exists u: nat :: u < |run[i].threads| && Enabled(run[i], u) && Serves(run[i], u, run[i].threads[t].id)
  {
    RunInv(c, run, i);
    var s := run[i];
    assert PcOk(s, t);
    if !Enabled(s, t) {
      var u: nat :| Serves(s, u, s.threads[t].id);
      assert Enabled(s, u);
    }
  }

  // ---- without a TTL and without invalidate ----

  ghost predicate KeyOnce(s: State, k: Key) {
    match Lookup(s, k)
    case None => Fills(s, k) == 0
    case Some(Reservation(_)) => Fills(s, k) <= 1
    case Some(Filled(_, o)) => Fills(s, k) == 1 && k in s.outcomes && s.outcomes[k] == o
    case Some(Tombstone) => false
  }

  ghost predicate PcOnce(s: State, t: nat)
    requires t < |s.threads|
  {
    match s.threads[t]
    case Reserve(_, current) => current.None?
    case Fill(k, _) => Fills(s, k) == 0
    case Store(k, _, o) => Fills(s, k) == 1 && k in s.outcomes && s.outcomes[k] == o
    case SetReady(k, _, e) => Lookup(s, k) == Some(e) && e.Filled?
    case Return(k, e) => Lookup(s, k) == Some(e) && e.Filled?
    case InvalidateGet(_) => false
    case InvalidateWait(_, _) => false
    case InvalidateSwap(_, _) => false
    case _ => true
  }

  ghost predicate Once(s: State) {
    (forall k :: KeyOnce(s, k)) && forall t :: 0 <= t < |s.threads| ==> PcOnce(s, t)
  }

  lemma OnceStep(c: Config, s: State, t: nat, ch: Choice, s': State)
    requires !c.ttl && !c.invalidates && t < |s.threads| && Inv(s) && Once(s) && Enabled(s, t)
    requires s' == Step(c, s, t, ch)
    ensures Once(s')
  {
    assert PcOk(s, t) && PcOnce(s, t);
    var pc := s.threads[t];
    assert !pc.Idle? ==> KeyOnce(s, pc.key);
    forall k
      ensures KeyOnce(s', k)
    {
      assert KeyOnce(s, k);
    }
    forall u | 0 <= u < |s'.threads|
      ensures PcOnce(s', u)
    {
      if u != t { OnceOthers(c, s, t, ch, s', u); }
    }
  }

  lemma OnceOthers(c: Config, s: State, t: nat, ch: Choice, s': State, u: nat)
    requires t < |s.threads| && Inv(s) && Once(s) && s' == Step(c, s, t, ch) && u < |s.threads| && u != t
    ensures u < |s'.threads| && PcOnce(s', u)
  {
    hide Step, KeyOnce, PcOnce, PcOk;
    assert PcOk(s, t) && PcOnce(s, t) && PcOk(s, u) && PcOnce(s, u);
    assert forall id :: Serves(s, u, id) ==> !Serves(s, t, id);
    OnceApart(c, s, t, ch, s', u);
  }

  lemma OnceApart(c: Config, s: State, t: nat, ch: Choice, s': State, u: nat)
    requires t < |s.threads| && u < |s.threads| && u != t && s' == Step(c, s, t, ch)
    requires PcOk(s, t) && PcOnce(s, t) && PcOk(s, u) && PcOnce(s, u)
    requires forall id :: Serves(s, u, id) ==> !Serves(s, t, id)
    ensures u < |s'.threads| && PcOnce(s', u)
  {
    var pc := s.threads[u];
    if pc.Fill? || pc.Store? {
      assert Serves(s, u, pc.id);
    }
  }

  lemma {:induction false} RunOnce(c: Config, run: seq<State>, i: nat)
    requires !c.ttl && !c.invalidates && Run(c, run) && i < |run|
    ensures Once(run[i])
  {
    hide Step, PcOk, PcOnce, KeyOnce, Inv;
    if i == 0 {
      InitOnce(run[0]);
    } else {
      RunOnce(c, run, i - 1);
      RunInv(c, run, i - 1);
      assert Next(c, run[i - 1], run[i - 1 + 1]);
      var t: nat, ch :| t < |run[i - 1].threads| && Enabled(run[i - 1], t) && run[i] == Step(c, run[i - 1], t, ch);
      OnceStep(c, run[i - 1], t, ch, run[i]);
    }
  }

  lemma InitOnce(s: State)
    requires Init(s)
    ensures Once(s)
  {
  }

  // Without a TTL and without invalidate, fill is called at most once for each key, and every __getitem__
  // that returns gives the outcome of that one call.
  lemma FillsOnce(c: Config, run: seq<State>, i: nat, t: nat, k: Key, e: Item)
    requires !c.ttl && !c.invalidates && Run(c, run) && i < |run|
    requires t < |run[i].threads| && run[i].threads[t] == Return(k, e)
    ensures Fills(run[i], k) == 1 && k in run[i].outcomes && e.Filled? && e.outcome == run[i].outcomes[k]
  {
    RunOnce(c, run, i);
    assert PcOnce(run[i], t) && KeyOnce(run[i], k);
  }

  lemma NeverFilledTwice(c: Config, run: seq<State>, i: nat, k: Key)
    requires !c.ttl && !c.invalidates && Run(c, run) && i < |run|
    ensures Fills(run[i], k) <= 1
  {
    RunOnce(c, run, i);
    assert KeyOnce(run[i], k);
  }

  // ---- the tombstone ----

  ghost predicate NoTombstone(s: State) {
    && (forall k :: k in s.cache ==> !s.cache[k].Tombstone?)
    && forall t :: 0 <= t < |s.threads| ==>
         && !s.threads[t].InvalidateGet? && !s.threads[t].InvalidateWait? && !s.threads[t].InvalidateSwap?
         && (s.threads[t].Return? ==> s.threads[t].entry.Filled?)
         && (s.threads[t].SetReady? ==> s.threads[t].entry.Filled?)
  }

  lemma NoTombstoneStep(c: Config, s: State, t: nat, ch: Choice, s': State)
    requires !c.invalidates && t < |s.threads| && Inv(s) && NoTombstone(s) && s' == Step(c, s, t, ch)
    ensures NoTombstone(s')
  {
    assert PcOk(s, t);
  }

  lemma {:induction false} RunNoTombstone(c: Config, run: seq<State>, i: nat)
    requires !c.invalidates && Run(c, run) && i < |run|
    ensures NoTombstone(run[i])
  {
    hide Step, PcOk, Inv;
    if i > 0 {
      RunNoTombstone(c, run, i - 1);
      RunInv(c, run, i - 1);
      assert Next(c, run[i - 1], run[i - 1 + 1]);
      var t: nat, ch :| t < |run[i - 1].threads| && Enabled(run[i - 1], t) && run[i] == Step(c, run[i - 1], t, ch);
      NoTombstoneStep(c, run[i - 1], t, ch, run[i]);
    }
  }

  // Without invalidate, with or without a TTL, every __getitem__ that returns gives the outcome of a fill.
  lemma ReturnsFilled(c: Config, run: seq<State>, i: nat, t: nat, k: Key, e: Item)
    requires !c.invalidates && Run(c, run) && i < |run| && t < |run[i].threads| && run[i].threads[t] == Return(k, e)
    ensures e.Filled?
  {
    RunNoTombstone(c, run, i);
  }

  ghost predicate NeverReturnsTombstone(c: Config) {
    forall run: seq<State>, i: nat, t: nat, k ::
      Run(c, run) && i < |run| && t < |run[i].threads| ==> run[i].threads[t] != Return(k, Tombstone)
  }

  // So no run returns the tombstone exactly when invalidate is never called; a TTL makes no difference.
  lemma TombstoneNeverReturnedIff(c: Config, k: Key, o: Outcome)
    ensures NeverReturnsTombstone(c) <==> !c.invalidates
  {
    if c.invalidates {
      TombstoneCanBeReturned(c.ttl, k, o);
    } else {
      forall run: seq<State>, i: nat, t: nat, key | Run(c, run) && i < |run| && t < |run[i].threads|
        ensures run[i].threads[t] != Return(key, Tombstone)
      {
        RunNoTombstone(c, run, i);
      }
    }
  }

  // ---- why a tombstone is returned ----

  // Step m is thread u's: its invalidate replaces the entry of k, or its fill's outcome is stored.
  ghost predicate Invalidates(run: seq<State>, m: nat, u: nat, k: Key) {
    && m + 1 < |run| && u < |run[m].threads| && run[m].threads[u].InvalidateSwap? && run[m].threads[u].key == k
    && run[m].threads[u].found.Filled? && Lookup(run[m], k) == Some(run[m].threads[u].found)
    && Lookup(run[m + 1], k) == Some(Tombstone)
  }

  ghost predicate Stores(run: seq<State>, m: nat, u: nat, k: Key) {
    && m + 1 < |run| && u < |run[m].threads| && run[m].threads[u].Store? && run[m].threads[u].key == k
    && Lookup(run[m], k) == Some(Reservation(run[m].threads[u].id))
    && Lookup(run[m + 1], k).Some? && Lookup(run[m + 1], k).value.Filled?
  }

  // Only these two steps make a tombstone or a filled entry out of something else.
  lemma CellChanges(c: Config, run: seq<State>, m: nat, k: Key)
    requires Run(c, run) && m + 1 < |run| && Lookup(run[m + 1], k) != Lookup(run[m], k)
    ensures Lookup(run[m + 1], k) == Some(Tombstone) ==> exists u: nat :: Invalidates(run, m, u, k)
    ensures Lookup(run[m + 1], k).Some? && Lookup(run[m + 1], k).value.Filled? ==> exists u: nat :: Stores(run, m, u, k)
  {
    RunInv(c, run, m);
    assert Next(c, run[m], run[m + 1]);
    var t: nat, ch :| t < |run[m].threads| && Enabled(run[m], t) && run[m + 1] == Step(c, run[m], t, ch);
    assert PcOk(run[m], t);
    assert Lookup(run[m + 1], k) == Some(Tombstone) ==> Invalidates(run, m, t, k);
    assert Lookup(run[m + 1], k).Some? && Lookup(run[m + 1], k).value.Filled? ==> Stores(run, m, t, k);
  }

  lemma {:induction false} TombstoneMade(c: Config, run: seq<State>, a: nat, j: nat, k: Key) returns (m: nat, u: nat)
    requires Run(c, run) && a <= j < |run| && Lookup(run[j], k) == Some(Tombstone)
    requires Lookup(run[a], k) != Some(Tombstone)
    ensures a <= m < j && Invalidates(run, m, u, k)
  {
    if Lookup(run[j - 1], k) == Some(Tombstone) {
      m, u := TombstoneMade(c, run, a, j - 1, k);
    } else {
      CellChanges(c, run, j - 1, k);
      m := j - 1;
      u :| Invalidates(run, m, u, k);
    }
  }

  lemma {:induction false} FilledMade(c: Config, run: seq<State>, a: nat, j: nat, k: Key) returns (m: nat, u: nat)
    requires Run(c, run) && a <= j < |run| && Lookup(run[j], k).Some? && Lookup(run[j], k).value.Filled?
    requires Lookup(run[a], k) != Lookup(run[j], k)
    ensures a <= m < j && Stores(run, m, u, k)
  {
    if Lookup(run[j - 1], k) == Lookup(run[j], k) {
      m, u := FilledMade(c, run, a, j - 1, k);
    } else {
      CellChanges(c, run, j - 1, k);
      m := j - 1;
      u :| Stores(run, m, u, k);
    }
  }

  // At moment a thread t read what the dict held for k, and since then it has been on its way to a
  // reservation that expects just that; after moment f its CAS has failed.
  ghost predicate Reserving(run: seq<State>, a: nat, j: nat, t: nat, k: Key) {
    && a < j < |run| && (forall m :: a <= m <= j ==> t < |run[m].threads|)
    && run[a].threads[t] == Get(k)
    && forall m :: a < m <= j ==> run[m].threads[t] == Reserve(k, Lookup(run[a], k))
  }

  ghost predicate Refetching(run: seq<State>, a: nat, f: nat, j: nat, t: nat, k: Key) {
    && Reserving(run, a, f, t, k) && f < j < |run| && Lookup(run[f], k) != Lookup(run[a], k)
    && forall m :: f < m <= j ==> t < |run[m].threads| && run[m].threads[t] == Refetch(k)
  }

  ghost predicate Expired(c: Config, e: Option<Item>) {
    c.ttl && e.Some? && e.value.Filled?
  }

  // Where these pcs come from.
  ghost predicate ComesFrom(c: Config, s: State, s': State, t: nat) {
    && t < |s.threads| == |s'.threads|
    && match s'.threads[t]
       case Reserve(k, e) =>
         s.threads[t] == Get(k) && e == Lookup(s, k) && (e.None? || e.value.Tombstone? || Expired(c, e))
       case Refetch(k) => s.threads[t].Reserve? && s.threads[t].key == k && Lookup(s, k) != s.threads[t].current
       case Return(k, Tombstone) => s.threads[t] == Refetch(k) && Lookup(s, k) == Some(Tombstone)
       case _ => true
  }

  lemma StepComesFrom(c: Config, s: State, t: nat, ch: Choice, s': State)
    requires t < |s.threads| && PcOk(s, t) && s' == Step(c, s, t, ch)
    ensures ComesFrom(c, s, s', t) && forall u :: 0 <= u < |s.threads| && u != t ==> s'.threads[u] == s.threads[u]
  {
  }

  // Either thread t moved, or it did not.
  lemma LastStep(c: Config, run: seq<State>, j: nat, t: nat)
    requires Run(c, run) && j < |run| && t < |run[j].threads| && !run[j].threads[t].Idle?
    ensures j > 0 && t < |run[j - 1].threads|
    ensures (run[j].threads[t] == run[j - 1].threads[t] || ComesFrom(c, run[j - 1], run[j], t))
  {
    hide Step, ComesFrom, PcOk;
    if j == 0 {
      StartsIdle(c, run, t);
    }
    RunInv(c, run, j - 1);
    assert Next(c, run[j - 1], run[j - 1 + 1]);
    var u: nat, ch :| u < |run[j - 1].threads| && Enabled(run[j - 1], u) && run[j] == Step(c, run[j - 1], u, ch);
    StepComesFrom(c, run[j - 1], u, ch, run[j]);
    SameThreads(c, run[j - 1], u, ch, run[j]);
  }

  lemma SameThreads(c: Config, s: State, t: nat, ch: Choice, s': State)
    requires t < |s.threads| && s' == Step(c, s, t, ch)
    ensures |s'.threads| == |s.threads|
  {
  }

  lemma StartsIdle(c: Config, run: seq<State>, t: nat)
    requires Run(c, run) && t < |run[0].threads|
    ensures run[0].threads[t].Idle?
  {
  }

  lemma {:induction false} ReserveTraced(c: Config, run: seq<State>, j: nat, t: nat) returns (a: nat)
    requires Run(c, run) && j < |run| && t < |run[j].threads| && run[j].threads[t].Reserve?
    ensures Reserving(run, a, j, t, run[j].threads[t].key)
    ensures var e := Lookup(run[a], run[j].threads[t].key); e.None? || e.value.Tombstone? || Expired(c, e)
  {
    hide Run, Expired;
    LastStep(c, run, j, t);
    if run[j].threads[t] == run[j - 1].threads[t] {
      a := ReserveTraced(c, run, j - 1, t);
    } else {
      a := j - 1;
    }
  }

  lemma {:induction false} RefetchTraced(c: Config, run: seq<State>, j: nat, t: nat) returns (a: nat, f: nat)
    requires Run(c, run) && j < |run| && t < |run[j].threads| && run[j].threads[t].Refetch?
    ensures Refetching(run, a, f, j, t, run[j].threads[t].key)
    ensures var e := Lookup(run[a], run[j].threads[t].key); e.None? || e.value.Tombstone? || Expired(c, e)
  {
    hide Run, Expired;
    LastStep(c, run, j, t);
    if run[j].threads[t] == run[j - 1].threads[t] {
      a, f := RefetchTraced(c, run, j - 1, t);
    } else {
      f := j - 1;
      a := ReserveTraced(c, run, f, t);
    }
  }

  // The thread read something that made it fill, its CAS failed, and it found the tombstone.
  lemma {:induction false} TombstoneTraced(c: Config, run: seq<State>, i: nat, t: nat, k: Key)
    returns (a: nat, f: nat, r: nat)
    requires Run(c, run) && i < |run| && t < |run[i].threads| && run[i].threads[t] == Return(k, Tombstone)
    ensures r < i && Refetching(run, a, f, r, t, k) && Lookup(run[r], k) == Some(Tombstone)
    ensures var e := Lookup(run[a], k); e.None? || e.value.Tombstone? || Expired(c, e)
  {
    hide Run, Expired, Refetching;
    LastStep(c, run, i, t);
    if run[i].threads[t] == run[i - 1].threads[t] {
      a, f, r := TombstoneTraced(c, run, i - 1, t, k);
    } else {
      r := i - 1;
      a, f := RefetchTraced(c, run, r, t);
    }
  }

  // In every run, a __getitem__ that returns the tombstone was overtaken between its two reads by another
  // thread's invalidate of the key and, unless the entry that it read had expired, by another thread's fill.
  lemma TombstoneHasCause(c: Config, run: seq<State>, i: nat, t: nat, k: Key)
    returns (a: nat, f: nat, r: nat, m: nat, u: nat)
    requires Run(c, run) && i < |run| && t < |run[i].threads| && run[i].threads[t] == Return(k, Tombstone)
    ensures r < i && Refetching(run, a, f, r, t, k) && a < m < r && u != t && Invalidates(run, m, u, k)
    ensures Expired(c, Lookup(run[a], k)) || exists n: nat, v: nat :: a < n < m && v != t && Stores(run, n, v, k)
  {
    a, f, r := TombstoneTraced(c, run, i, t, k);
    var from := if Lookup(run[a], k) == Some(Tombstone) then f else a;
    m, u := TombstoneMade(c, run, from, r, k);
    assert run[a].threads[t] == Get(k);
    AtRead(c, run, a, t, k);
    if !Expired(c, Lookup(run[a], k)) {
      var n, v := FilledMade(c, run, a, m, k);
      assert v != t && a < n;
    }
  }

  // The step in which a thread reads changes nothing.
  lemma AtRead(c: Config, run: seq<State>, a: nat, t: nat, k: Key)
    requires Run(c, run) && a + 1 < |run| && t < |run[a].threads| && run[a].threads[t] == Get(k)
    requires t < |run[a + 1].threads| && run[a + 1].threads[t] != Get(k)
    ensures forall u: nat :: !Invalidates(run, a, u, k) && !Stores(run, a, u, k)
  {
    assert Next(c, run[a], run[a + 1]);
    var u: nat, ch :| u < |run[a].threads| && Enabled(run[a], u) && run[a + 1] == Step(c, run[a], u, ch);
    assert u == t;
  }

  ghost predicate Reaches(c: Config, s: State) {
    exists run :: Run(c, run) && run[|run| - 1] == s
  }

  lemma ReachesNext(c: Config, s: State, t: nat, ch: Choice)
    requires Reaches(c, s) && t < |s.threads| && Enabled(s, t)
    ensures Reaches(c, Step(c, s, t, ch))
  {
    var run :| Run(c, run) && run[|run| - 1] == s;
    var s' := Step(c, s, t, ch);
    assert Next(c, s, s');
    var run' := run + [s'];
    forall i | 0 <= i < |run'| - 1
      ensures Next(c, run'[i], run'[i + 1])
    {
      if i < |run| - 1 { assert Next(c, run[i], run[i + 1]); }
    }
    assert Run(c, run') && run'[|run'| - 1] == s';
  }

  // Thread 0 finds nothing, and so does thread 1.
  lemma BothRead(ttl: bool, k: Key, o: Outcome)
    ensures Reaches(Config(ttl, true), State(map[], {}, 0, [Reserve(k, None), Reserve(k, None)], map[], map[]))
  {
    hide Reaches;
    var c, get := Config(ttl, true), Choice(k, false, o, false);
    StartReached(c);
    ReachesNext(c, State(map[], {}, 0, [Idle, Idle], map[], map[]), 0, get);
    ReachesNext(c, State(map[], {}, 0, [Get(k), Idle], map[], map[]), 0, get);
    ReachesNext(c, State(map[], {}, 0, [Reserve(k, None), Idle], map[], map[]), 1, get);
    var last := State(map[], {}, 0, [Reserve(k, None), Get(k)], map[], map[]);
    ReachesNext(c, last, 1, get);
    assert Step(c, last, 1, get).threads == [Reserve(k, None), Reserve(k, None)];
  }

  // Thread 1 reserves the key, fills it and returns.
  lemma WinnerFills(ttl: bool, k: Key, o: Outcome)
    ensures Reaches(Config(ttl, true),
              State(map[k := Filled(1, o)], {0}, 2, [Reserve(k, None), Idle], map[k := 1], map[k := o]))
  {
    hide Reaches;
    var c, get := Config(ttl, true), Choice(k, false, o, false);
    var none, noOutcome := map[], map[];
    BothRead(ttl, k, o);
    ReachesNext(c, State(map[], {}, 0, [Reserve(k, None), Reserve(k, None)], none, noOutcome), 1, get);
    ReachesNext(c, State(map[k := Reservation(0)], {}, 1, [Reserve(k, None), Fill(k, 0)], none, noOutcome), 1, get);
    ReachesNext(c, State(map[k := Reservation(0)], {}, 1, [Reserve(k, None), Store(k, 0, o)], map[k := 1],
        map[k := o]), 1, get);
    ReachesNext(c, State(map[k := Filled(1, o)], {}, 2, [Reserve(k, None), SetReady(k, 0, Filled(1, o))], map[k := 1],
        map[k := o]), 1, get);
    var last := State(map[k := Filled(1, o)], {0}, 2, [Reserve(k, None), Return(k, Filled(1, o))], map[k := 1],
        map[k := o]);
    ReachesNext(c, last, 1, get);
    assert Step(c, last, 1, get).threads == [Reserve(k, None), Idle];
  }

  lemma StartReached(c: Config)
    ensures Reaches(c, State(map[], {}, 0, [Idle, Idle], map[], map[]))
  {
    var run := [State(map[], {}, 0, [Idle, Idle], map[], map[])];
    assert Run(c, run) && run[|run| - 1] == run[0];
  }

  // Then thread 1 invalidates the key, and thread 0, whose CAS fails, returns the tombstone.
  lemma TombstoneReached(ttl: bool, k: Key, o: Outcome)
    ensures Reaches(Config(ttl, true),
              State(map[k := Tombstone], {0}, 2, [Return(k, Tombstone), Idle], map[k := 1], map[k := o]))
  {
    hide Reaches;
    var c, get, invalidate := Config(ttl, true), Choice(k, false, o, false), Choice(k, true, o, false);
    var f, r := map[k := 1], map[k := o];
    WinnerFills(ttl, k, o);
    ReachesNext(c, State(map[k := Filled(1, o)], {0}, 2, [Reserve(k, None), Idle], f, r), 1, invalidate);
    ReachesNext(c, State(map[k := Filled(1, o)], {0}, 2, [Reserve(k, None), InvalidateGet(k)], f, r), 1, invalidate);
    ReachesNext(c, State(map[k := Filled(1, o)], {0}, 2, [Reserve(k, None), InvalidateSwap(k, Filled(1, o))], f, r), 1,
        invalidate);
    ReachesNext(c, State(map[k := Tombstone], {0}, 2, [Reserve(k, None), Idle], f, r), 0, get);
    var last := State(map[k := Tombstone], {0}, 2, [Refetch(k), Idle], f, r);
    ReachesNext(c, last, 0, get);
    assert Step(c, last, 0, get).threads == [Return(k, Tombstone), Idle];
  }

  // A run of two threads, with or without a TTL, in which __getitem__ returns the tombstone.
  lemma TombstoneCanBeReturned(ttl: bool, k: Key, o: Outcome)
    ensures exists run: seq<State>, i: nat, t: nat ::
              Run(Config(ttl, true), run) && i < |run| && t < |run[i].threads|
                  && run[i].threads[t] == Return(k, Tombstone)
  {
    TombstoneReached(ttl, k, o);
    var c := Config(ttl, true);
    var run: seq<State> :| Run(c, run)
        && run[|run| - 1] == State(map[k := Tombstone], {0}, 2, [Return(k, Tombstone), Idle], map[k := 1], map[k := o]);
    assert run[|run| - 1].threads[0] == Return(k, Tombstone);
  }
}
