// get_empty_entry ends: a thread that is let alone gets an entry, or is told to grow the table.
module AllocatorProgress {
  import opened Allocator
  import opened AllocatorInvariant

  // n steps of thread t alone.
  function Solo(s: State, t: nat, ch: Choice, n: nat): (s': State)
    requires t < |s.threads| && s.bs > 0
    ensures t < |s'.threads| && s'.bs > 0
    decreases n
  {
    if n == 0 then s
    else
      StepKeepsSize(s, t, ch);
      Solo(Step(s, t, ch), t, ch, n - 1)
  }

  lemma StepKeepsSize(s: State, t: nat, ch: Choice)
    requires t < |s.threads| && s.bs > 0
    ensures |Step(s, t, ch).threads| == |s.threads| && Step(s, t, ch).bs == s.bs
  {
  }

  predicate Returned(pc: Pc) {
    pc.Holding? || pc.MustGrow?
  }

  // A bound on the steps that are left. A page before the greatest is scanned at most once more.
  function Rank(s: State, pc: Pc): nat {
    match pc
    case Out => 5000
    case AddPage(page, _) => if page < s.greatest then 4000 else 3
    case Scan(page, _, offset) => Scans(s, page) + 2 * Left(offset) + 5
    case Try(page, _, offset) => Scans(s, page) + 2 * Left(offset) + 4
    case Recheck(page, _) => Scans(s, page) + 4
    case StoreNext(_) => 2
    case Bump(_) => 1
    case _ => 0
  }

  function Scans(s: State, page: nat): nat {
    if page < s.greatest then 2000 else 1000
  }

  function Left(offset: nat): nat {
    if offset < ENTRIES_IN_PAGE then ENTRIES_IN_PAGE - offset else 0
  }

  ghost predicate NobodyElseAdds(s: State, t: nat) {
    forall u: nat :: u != t ==> !Adding(s, u)
  }

  lemma RankFalls(s: State, t: nat, ch: Choice, s': State)
    requires t < |s.threads| && s.bs > 0 && PagesOk(s) && PcOk(s, t) && NobodyElseAdds(s, t)
    requires !Returned(s.threads[t].pc) && s' == Step(s, t, ch)
    ensures t < |s'.threads|
    ensures Returned(s'.threads[t].pc) || Rank(s', s'.threads[t].pc) < Rank(s, s.threads[t].pc)
  {
    hide PageFull, Scanned;
    var pc := s.threads[t].pc;
    if pc.Scan? || pc.Try? {
      OffsetOk(s, t);
    }
  }

  lemma OffsetOk(s: State, t: nat)
    requires t < |s.threads| && s.bs > 0 && PcOk(s, t) && (s.threads[t].pc.Scan? || s.threads[t].pc.Try?)
    ensures s.threads[t].pc.page <= s.greatest
  {
  }

  lemma AloneStays(s: State, s': State, t: nat)
    requires Evolves(s, s', t) && NobodyElseAdds(s, t)
    ensures NobodyElseAdds(s', t)
  {
    forall u: nat | u != t
      ensures !Adding(s', u)
    {
      assert !Adding(s, u);
    }
  }

  lemma Parts(s: State, t: nat)
    requires Inv(s) && t < |s.threads|
    ensures s.bs > 0 && PagesOk(s) && PcOk(s, t)
  {
    assert ThreadOk(s, t);
  }

  // From any reachable state, if no other thread is in the middle of adding a page, a thread inside
  // get_empty_entry returns after at most 5000 steps of its own; while another one is, it may have to wait.
  lemma {:induction false} AllocationEnds(s: State, t: nat, ch: Choice) returns (n: nat)
    requires Inv(s) && s.bs > 0 && t < |s.threads| && NobodyElseAdds(s, t)
    ensures n <= Rank(s, s.threads[t].pc) <= 5000
    ensures Returned(Solo(s, t, ch, n).threads[t].pc)
    decreases Rank(s, s.threads[t].pc)
  {
    hide Inv, PagesOk, PcOk, Step, Evolves;
    RankBound(s, s.threads[t].pc);
    if Returned(s.threads[t].pc) {
      n := 0;
    } else {
      Parts(s, t);
      var s' := Step(s, t, ch);
      StepKeepsSize(s, t, ch);
      RankFalls(s, t, ch, s');
      StepInv(s, t, ch, s');
      AloneStays(s, s', t);
      if Returned(s'.threads[t].pc) {
        RankPositive(s, s.threads[t].pc);
        n := 1;
        assert Solo(s', t, ch, 0) == s';
      } else {
        var m := AllocationEnds(s', t, ch);
        n := m + 1;
      }
    }
  }

  lemma RankBound(s: State, pc: Pc)
    ensures Rank(s, pc) <= 5000
  {
  }

  lemma RankPositive(s: State, pc: Pc)
    requires !Returned(pc)
    ensures Rank(s, pc) >= 1
  {
  }
}
