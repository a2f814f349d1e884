// What invalidate and expiry promise in the runs of CacheFill: the key is filled again.
module CacheRefill {
  import opened Options
  import opened CacheFill

  // ---- invalidate ----

  // Thread t is inside a call of invalidate(k).
  predicate Invalidating(pc: Pc, k: Key) {
    (pc.InvalidateGet? || pc.InvalidateWait? || pc.InvalidateSwap?) && pc.key == k
  }

  // It has been so from after moment a, when it was idle, to moment i.
  ghost predicate InvalidateCall(run: seq<State>, a: nat, i: nat, t: nat, k: Key) {
    && a < i < |run| && t < |run[a].threads| && run[a].threads[t].Idle?
    && forall n :: a < n <= i ==> t < |run[n].threads| && Invalidating(run[n].threads[t], k)
  }

  // One step of the run, and whose it is.
  lemma StepOf(c: Config, run: seq<State>, n: nat) returns (u: nat, ch: Choice)
    requires Run(c, run) && n + 1 < |run|
    ensures u < |run[n].threads| == |run[n + 1].threads| && Enabled(run[n], u) && run[n + 1] == Step(c, run[n], u, ch)
    ensures Inv(run[n]) && Evolves(run[n], run[n + 1], u) && PcOk(run[n], u)
  {
    hide Step, Evolves, PcOk;
    RunInv(c, run, n);
    assert Next(c, run[n], run[n + 1]);
    u, ch :| u < |run[n].threads| && Enabled(run[n], u) && run[n + 1] == Step(c, run[n], u, ch);
    assert PcOk(run[n], u);
    StepInv(c, run[n], u, ch, run[n + 1]);
    EvolvesThreads(run[n], run[n + 1], u);
  }

  lemma EvolvesThreads(s: State, s': State, t: nat)
    requires Evolves(s, s', t)
    ensures |s'.threads| == |s.threads| && forall u :: 0 <= u < |s.threads| && u != t ==> s'.threads[u] == s.threads[u]
  {
  }

  // Where an invalidate comes from.
  lemma InvalidateFrom(c: Config, s: State, t: nat, ch: Choice, s': State, k: Key)
    requires t < |s.threads| && s' == Step(c, s, t, ch)
    ensures t < |s'.threads| && (Invalidating(s'.threads[t], k) ==> s.threads[t].Idle? || Invalidating(s.threads[t], k))
  {
  }

  lemma {:induction false} InvalidateTraced(c: Config, run: seq<State>, i: nat, t: nat, k: Key) returns (a: nat)
    requires Run(c, run) && i < |run| && t < |run[i].threads| && Invalidating(run[i].threads[t], k)
    ensures InvalidateCall(run, a, i, t, k)
  {
    a := 0;
    if i == 0 {
      StartsIdle(c, run, t);
      assert false;
    } else {
      var u, ch := StepOf(c, run, i - 1);
      InvalidateFrom(c, run[i - 1], u, ch, run[i], k);
      EvolvesThreads(run[i - 1], run[i], u);
      if run[i - 1].threads[t].Idle? {
        a := i - 1;
      } else {
        a := InvalidateTraced(c, run, i - 1, t, k);
      }
    }
  }

  // The key holds no value.
  predicate Cleared(s: State, k: Key) {
    Lookup(s, k).None? || Lookup(s, k) == Some(Tombstone)
  }

  lemma LastInvalidate(c: Config, s: State, t: nat, ch: Choice, s': State, k: Key)
    requires t < |s.threads| && s' == Step(c, s, t, ch) && Invalidating(s.threads[t], k) && s'.threads[t].Idle?
    ensures Cleared(s, k) || Cleared(s', k)
  {
  }

  // When invalidate(k) returns, the key held nothing, or the tombstone, at a moment m of the call: a fill that was
  // under way when it was called has ended before.
  lemma InvalidateClears(c: Config, run: seq<State>, i: nat, t: nat, k: Key) returns (a: nat, m: nat)
    requires Run(c, run) && i + 1 < |run| && t < |run[i].threads| && t < |run[i + 1].threads|
    requires Invalidating(run[i].threads[t], k) && run[i + 1].threads[t].Idle?
    ensures InvalidateCall(run, a, i, t, k) && a < m <= i + 1 && Cleared(run[m], k)
  {
    hide Step, Evolves, PcOk, Inv;
    a := InvalidateTraced(c, run, i, t, k);
    var u, ch := StepOf(c, run, i);
    EvolvesThreads(run[i], run[i + 1], u);
    LastInvalidate(c, run[i], t, ch, run[i + 1], k);
    m := if Cleared(run[i], k) then i else i + 1;
  }

  // ---- fills ----

  // In step n thread v calls fill for key k, holding reservation id, with outcome o.
  ghost predicate Calls(run: seq<State>, n: nat, v: nat, k: Key, id: nat, o: Outcome) {
    && n + 1 < |run| && v < |run[n].threads| && v < |run[n + 1].threads|
    && run[n].threads[v] == Fill(k, id) && run[n + 1].threads[v] == Store(k, id, o)
    && Fills(run[n + 1], k) == Fills(run[n], k) + 1
  }

  // In step n it replaces its reservation by that outcome.
  ghost predicate Puts(run: seq<State>, n: nat, v: nat, k: Key, id: nat, e: Item) {
    && n + 1 < |run| && v < |run[n].threads| && e.Filled? && run[n].threads[v] == Store(k, id, e.outcome)
    && Lookup(run[n], k) == Some(Reservation(id)) && Lookup(run[n + 1], k) == Some(e)
  }

  lemma PutStep(c: Config, s: State, t: nat, ch: Choice, s': State, k: Key, e: Item)
    requires t < |s.threads| && PcOk(s, t) && s' == Step(c, s, t, ch) && e.Filled?
    requires Lookup(s', k) == Some(e) && Lookup(s, k) != Some(e)
    ensures s.threads[t].Store? && s.threads[t].key == k && s.threads[t].outcome == e.outcome
    ensures Lookup(s, k) == Some(Reservation(s.threads[t].id))
  {
  }

  // An entry that is in the cache now and was not at moment m has been put there since.
  lemma {:induction false} PutTraced(c: Config, run: seq<State>, m: nat, j: nat, k: Key, e: Item)
    returns (n: nat, v: nat, id: nat)
    requires Run(c, run) && m <= j < |run| && e.Filled? && Lookup(run[j], k) == Some(e) && Lookup(run[m], k) != Some(e)
    ensures m <= n < j && Puts(run, n, v, k, id, e)
    decreases j
  {
    hide Step, Evolves, Inv, PcOk;
    if Lookup(run[j - 1], k) == Some(e) {
      n, v, id := PutTraced(c, run, m, j - 1, k, e);
    } else {
      var u, ch := StepOf(c, run, j - 1);
      PutStep(c, run[j - 1], u, ch, run[j], k, e);
      n, v, id := j - 1, u, run[j - 1].threads[u].id;
    }
  }

  lemma StoreFrom(c: Config, s: State, t: nat, ch: Choice, s': State)
    requires t < |s.threads| && s' == Step(c, s, t, ch)
    ensures t < |s'.threads|
    ensures s'.threads[t].Store? ==>
              && s.threads[t] == Fill(s'.threads[t].key, s'.threads[t].id)
              && Fills(s', s'.threads[t].key) == Fills(s, s'.threads[t].key) + 1
  {
  }

  // Who stores an outcome has called fill for it, and has waited for nothing since.
  lemma {:induction false} CallTraced(c: Config, run: seq<State>, j: nat, v: nat, k: Key, id: nat, o: Outcome)
    returns (n: nat)
    requires Run(c, run) && j < |run| && v < |run[j].threads| && run[j].threads[v] == Store(k, id, o)
    ensures n < j && Calls(run, n, v, k, id, o)
    ensures forall i :: n < i <= j ==> v < |run[i].threads| && run[i].threads[v] == Store(k, id, o)
  {
    hide Step, Evolves, Inv, PcOk;
    n := 0;
    if j == 0 {
      StartsIdle(c, run, v);
      assert false;
    } else {
      var u, ch := StepOf(c, run, j - 1);
      EvolvesThreads(run[j - 1], run[j], u);
      StoreFrom(c, run[j - 1], u, ch, run[j]);
      if u == v {
        n := j - 1;
      } else {
        n := CallTraced(c, run, j - 1, v, k, id, o);
      }
    }
  }

  lemma StoringHolds(c: Config, run: seq<State>, m: nat, v: nat)
    requires Run(c, run) && m < |run| && v < |run[m].threads| && run[m].threads[v].Store?
    ensures Lookup(run[m], run[m].threads[v].key) == Some(Reservation(run[m].threads[v].id))
  {
    RunInv(c, run, m);
    assert PcOk(run[m], v);
  }

  // What the cache holds after a moment at which it held nothing is the outcome of a fill called since.
  lemma FilledSince(c: Config, run: seq<State>, m: nat, j: nat, k: Key, e: Item)
    returns (n1: nat, n2: nat, v: nat, id: nat)
    requires Run(c, run) && m <= j < |run| && Cleared(run[m], k) && e.Filled? && Lookup(run[j], k) == Some(e)
    ensures m <= n1 < n2 < j && Calls(run, n1, v, k, id, e.outcome) && Puts(run, n2, v, k, id, e)
  {
    hide Run, Calls;
    n2, v, id := PutTraced(c, run, m, j, k, e);
    n1 := CallTraced(c, run, n2, v, k, id, e.outcome);
    if n1 < m {
      StoringHolds(c, run, m, v);
      assert false;
    }
  }

  // ---- what __getitem__ returns ----

  lemma ReturnFrom(c: Config, s: State, t: nat, ch: Choice, s': State, k: Key, e: Item)
    requires t < |s.threads| && PcOk(s, t) && s' == Step(c, s, t, ch) && e.Filled?
    ensures t < |s'.threads| && !(s'.threads[t] == Return(k, e) && s.threads[t].Idle?)
    ensures s'.threads[t] == Return(k, e) ==>
              Lookup(s, k) == Some(e) || (s.threads[t].SetReady? && s.threads[t] == SetReady(k, s.threads[t].id, e))
    ensures s'.threads[t].SetReady? && s'.threads[t].key == k && s'.threads[t].entry == e ==> Lookup(s', k) == Some(e)
  {
  }

  // It holds entry e, to return it.
  predicate Got(pc: Pc, k: Key, e: Item) {
    pc == Return(k, e) || (pc.SetReady? && pc.key == k && pc.entry == e)
  }

  // A call that began at moment b returns only what was in the cache since.
  lemma {:induction false} ReturnSeen(c: Config, run: seq<State>, b: nat, j: nat, u: nat, k: Key, e: Item)
    returns (n: nat)
    requires Run(c, run) && b < j < |run| && u < |run[b].threads| && run[b].threads[u].Idle? && e.Filled?
    requires u < |run[j].threads| && Got(run[j].threads[u], k, e)
    ensures b <= n <= j && Lookup(run[n], k) == Some(e)
    decreases j
  {
    hide Step, Evolves, Inv, PcOk;
    var t, ch := StepOf(c, run, j - 1);
    EvolvesThreads(run[j - 1], run[j], t);
    ReturnFrom(c, run[j - 1], t, ch, run[j], k, e);
    if t == u && Lookup(run[j - 1], k) == Some(e) {
      n := j - 1;
    } else if t == u && Lookup(run[j], k) == Some(e) {
      n := j;
    } else {
      GotBusy(run[b].threads[u], k, e);
      n := ReturnSeen(c, run, b, j - 1, u, k, e);
    }
  }

  lemma GotBusy(pc: Pc, k: Key, e: Item)
    requires pc.Idle?
    ensures !Got(pc, k, e)
  {
  }

  // A __getitem__ called after invalidate(k) has returned gives, if it gives a value, the outcome of a fill that
  // was called and stored after a moment of the invalidate: nothing older.
  lemma InvalidatedIsRefilled(c: Config, run: seq<State>, i: nat, t: nat, k: Key, b: nat, j: nat, u: nat, e: Item)
    returns (a: nat, m: nat, n1: nat, n2: nat, v: nat, id: nat)
    requires Run(c, run) && i + 1 < |run| && t < |run[i].threads| && t < |run[i + 1].threads|
    requires Invalidating(run[i].threads[t], k) && run[i + 1].threads[t].Idle?
    requires i + 1 <= b < j < |run| && u < |run[b].threads| && run[b].threads[u].Idle?
    requires u < |run[j].threads| && run[j].threads[u] == Return(k, e) && e.Filled?
    ensures InvalidateCall(run, a, i, t, k) && a < m <= i + 1
    ensures m <= n1 < n2 < j && Calls(run, n1, v, k, id, e.outcome) && Puts(run, n2, v, k, id, e)
  {
    hide Run, Calls, Puts, InvalidateCall, Cleared;
    a, m := InvalidateClears(c, run, i, t, k);
    var n := ReturnSeen(c, run, b, j, u, k, e);
    n1, n2, v, id := FilledSince(c, run, m, n, k, e);
  }

  // A __getitem__ ends only by returning what it holds: it never comes back empty-handed.
  predicate Getting(pc: Pc, k: Key) {
    && (pc.Get? || pc.Reserve? || pc.Refetch? || pc.Fill? || pc.Store? || pc.SetReady? || pc.Wait? || pc.Return?
        || pc.Failed?)
    && pc.key == k
  }

  lemma GettingEnds(c: Config, run: seq<State>, i: nat, t: nat, k: Key)
    requires Run(c, run) && i + 1 < |run| && t < |run[i].threads| && t < |run[i + 1].threads|
    requires Getting(run[i].threads[t], k) && !Getting(run[i + 1].threads[t], k)
    ensures run[i].threads[t].Return? && run[i + 1].threads[t].Idle?
  {
    var u, ch := StepOf(c, run, i);
  }

  // ---- expiry ----

  // Entries that were made have numbers below the next one.
  ghost predicate Numbered(s: State) {
    forall k :: k in s.cache && s.cache[k].Filled? ==> s.cache[k].id < s.nextId
  }

  lemma {:induction false} RunNumbered(c: Config, run: seq<State>, i: nat)
    requires Run(c, run) && i < |run|
    ensures Numbered(run[i])
  {
    hide Step, Evolves, PcOk, Inv;
    if i > 0 {
      RunNumbered(c, run, i - 1);
      var u, ch := StepOf(c, run, i - 1);
      NumberedStep(c, run[i - 1], u, ch, run[i]);
    }
  }

  lemma NumberedStep(c: Config, s: State, t: nat, ch: Choice, s': State)
    requires t < |s.threads| && s' == Step(c, s, t, ch) && Numbered(s)
    ensures Numbered(s')
  {
  }

  // The entry is not in the cache, and no new one will be the same.
  predicate Gone(s: State, k: Key, e: Item) {
    e.Filled? && e.id < s.nextId && Lookup(s, k) != Some(e)
  }

  // Thread t is about to replace the expired entry, or the entry is gone and thread t does not hold it.
  predicate Replacing(s: State, t: nat, k: Key, e: Item) {
    && t < |s.threads|
    && (s.threads[t] == Reserve(k, Some(e)) || (Gone(s, k, e) && !Got(s.threads[t], k, e)))
  }

  lemma GoneStays(c: Config, s: State, t: nat, ch: Choice, s': State, k: Key, e: Item)
    requires t < |s.threads| && s' == Step(c, s, t, ch) && Gone(s, k, e)
    ensures Gone(s', k, e)
  {
  }

  lemma ReplacingOwn(c: Config, s: State, t: nat, ch: Choice, s': State, k: Key, e: Item)
    requires t < |s.threads| && PcOk(s, t) && s' == Step(c, s, t, ch) && Replacing(s, t, k, e) && e.Filled?
    requires e.id < s.nextId
    ensures Replacing(s', t, k, e)
  {
  }

  lemma ReplacingStep(c: Config, s: State, u: nat, ch: Choice, s': State, t: nat, k: Key, e: Item)
    requires u < |s.threads| && PcOk(s, u) && s' == Step(c, s, u, ch) && Evolves(s, s', u)
    requires Replacing(s, t, k, e) && e.Filled? && e.id < s.nextId
    ensures Replacing(s', t, k, e) && s.nextId <= s'.nextId
  {
    hide PcOk, Step;
    if u == t {
      ReplacingOwn(c, s, t, ch, s', k, e);
    } else if Gone(s, k, e) {
      GoneStays(c, s, u, ch, s', k, e);
    }
  }

  lemma ExpiredReplaced(c: Config, s: State, t: nat, ch: Choice, s': State, k: Key, e: Item)
    requires t < |s.threads| && s' == Step(c, s, t, ch) && s.threads[t] == Get(k) && Lookup(s, k) == Some(e)
    requires e.Filled?
    requires c.ttl && ch.expired
    ensures Replacing(s', t, k, e) && s'.nextId == s.nextId
  {
  }

  // One that reads a value which has not expired returns it, and does not fill.
  lemma HitReturned(c: Config, run: seq<State>, n: nat, ch: Choice, t: nat, k: Key, e: Item)
    requires Run(c, run) && n + 1 < |run| && t < |run[n].threads| && run[n].threads[t] == Get(k)
    requires Lookup(run[n], k) == Some(e) && e.Filled? && !(c.ttl && ch.expired) && run[n + 1] == Step(c, run[n], t, ch)
    ensures t < |run[n + 1].threads| && run[n + 1].threads[t] == Return(k, e)
    ensures Fills(run[n + 1], k) == Fills(run[n], k)
  {
  }

  // With a TTL, a __getitem__ that reads an entry which has expired never returns that entry, then or later.
  lemma {:induction false} ExpiredNotReturned(c: Config, run: seq<State>, n: nat, ch: Choice, j: nat, t: nat, k: Key,
      e: Item)
    requires Run(c, run) && n < j < |run| && t < |run[n].threads| && run[n].threads[t] == Get(k)
    requires Lookup(run[n], k) == Some(e) && e.Filled?
    requires c.ttl && ch.expired && run[n + 1] == Step(c, run[n], t, ch)
    ensures t < |run[j].threads| && run[j].threads[t] != Return(k, e)
    ensures Replacing(run[j], t, k, e) && e.id < run[j].nextId
    decreases j
  {
    hide Step, Evolves, Inv, PcOk;
    if j == n + 1 {
      RunNumbered(c, run, n);
      ExpiredReplaced(c, run[n], t, ch, run[j], k, e);
    } else {
      ExpiredNotReturned(c, run, n, ch, j - 1, t, k, e);
      var u, ch' := StepOf(c, run, j - 1);
      ReplacingStep(c, run[j - 1], u, ch', run[j], t, k, e);
    }
  }
}
