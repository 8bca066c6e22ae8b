/** What holds in every reachable state of the guard layer, whatever calls were made on whatever runs. */
module GuardSafety {
  import opened GuardModel
  import opened GuardRuns
  import opened RunViews
  import opened Isolation
  import opened Replay

  function MaxReal(x: real, y: real): real { if x < y then y else x }
  function MaxInt(x: int, y: int): int { if x < y then y else x }

  /** Executed costs never add up to more than the cap, nor a subject's effects to more than its budget. */
  lemma {:induction false} LegalLogWithinLimits(p: Policy, log: seq<AuditEntry>)
    requires Legal(p, log)
    ensures Replayed(log).totalCost <= MaxReal(p.cap, 0.0)
    ensures forall subject :: Used(Replayed(log), subject) <= MaxInt(p.budget, 0)
  {
    if log != [] {
      var init, e := log[..|log| - 1], log[|log| - 1];
      LegalLogWithinLimits(p, init);
      forall subject ensures Used(Replayed(log), subject) <= MaxInt(p.budget, 0) {
        assert Used(Replayed(init), subject) <= MaxInt(p.budget, 0);
      }
    }
  }

  lemma {:induction false} KeyRecorded(log: seq<AuditEntry>, key: Key)
    ensures key in ExecutedKeys(log) <==>
            exists i :: 0 <= i < |log| && log[i].decision == Verdict(Executed) && log[i].action.key == key
  {
    if log != [] {
      var n := |log| - 1;
      KeyRecorded(log[..n], key);
      if i :| 0 <= i < n && log[..n][i].decision == Verdict(Executed) && log[..n][i].action.key == key {
        assert log[i].action.key == key && log[i].decision == Verdict(Executed);
      }
      if i :| 0 <= i < |log| && log[i].decision == Verdict(Executed) && log[i].action.key == key {
        assert i == n || (log[..n][i].decision == Verdict(Executed) && log[..n][i].action.key == key);
      }
    }
  }

  lemma {:induction false} TripRecorded(log: seq<AuditEntry>)
    ensures Replayed(log).breakerTripped <==> exists i :: 0 <= i < |log| && log[i].decision == Verdict(RejectedSpendCap)
  {
    if log != [] {
      var n := |log| - 1;
      TripRecorded(log[..n]);
      if i :| 0 <= i < n && log[..n][i].decision == Verdict(RejectedSpendCap) {
        assert log[i].decision == Verdict(RejectedSpendCap);
      }
      if i :| 0 <= i < |log| && log[i].decision == Verdict(RejectedSpendCap) {
        assert i == n || log[..n][i].decision == Verdict(RejectedSpendCap);
      }
    }
  }

  /** No key is executed twice. */
  lemma KeyExecutesOnce(p: Policy, log: seq<AuditEntry>, i: nat, j: nat)
    requires Legal(p, log) && i < j < |log|
    requires log[i].decision == Verdict(Executed) && log[j].decision == Verdict(Executed)
    ensures log[i].action.key != log[j].action.key
  {
    LegalEverywhere(p, log, j);
    KeyRecorded(log[..j], log[i].action.key);
    assert log[..j][i] == log[i];
  }

  /** A duplicate answers for an earlier execution of its key. */
  lemma DuplicateFollowsExecuted(p: Policy, log: seq<AuditEntry>, j: nat)
    requires Legal(p, log) && j < |log| && log[j].decision == Verdict(Duplicate)
    ensures exists i :: 0 <= i < j && log[i].decision == Verdict(Executed) && log[i].action.key == log[j].action.key
  {
    LegalEverywhere(p, log, j);
    KeyRecorded(log[..j], log[j].action.key);
    var i :| 0 <= i < j && log[..j][i].decision == Verdict(Executed) && log[..j][i].action.key == log[j].action.key;
    assert log[i].decision == Verdict(Executed);
  }

  /** The run halts at the entry that trips the breaker, and at no other point. */
  lemma BreakerHaltsTheRun(p: Policy, log: seq<AuditEntry>, j: nat)
    requires Legal(p, log) && j < |log|
    ensures log[j].decision == Verdict(RejectedBreakerOpen) <==>
            exists i :: 0 <= i < j && log[i].decision == Verdict(RejectedSpendCap)
  {
    LegalEverywhere(p, log, j);
    TripRecorded(log[..j]);
    if i :| 0 <= i < j && log[..j][i].decision == Verdict(RejectedSpendCap) {
      assert log[i].decision == Verdict(RejectedSpendCap);
    }
    if i :| 0 <= i < j && log[i].decision == Verdict(RejectedSpendCap) {
      assert log[..j][i].decision == Verdict(RejectedSpendCap);
    }
  }

  function TotalCost(actions: seq<Action>): real {
    if actions == [] then 0.0 else TotalCost(actions[..|actions| - 1]) + actions[|actions| - 1].cost
  }

  lemma {:induction false} ReplayedCost(log: seq<AuditEntry>)
    ensures Replayed(log).totalCost == TotalCost(ExecutedActions(log))
  {
    if log != [] {
      var init, e := log[..|log| - 1], log[|log| - 1];
      ReplayedCost(init);
      var before := ExecutedActions(init);
      if e.decision == Verdict(Executed) {
        assert ExecutedActions(log) == before + [e.action];
        assert (before + [e.action])[..|before|] == before;
      } else {
        assert ExecutedActions(log) == before;
      }
    }
  }

  ghost predicate DistinctActionKeys(actions: seq<Action>) {
    forall i, j :: 0 <= i < j < |actions| ==> actions[i].key != actions[j].key
  }

  lemma {:induction false} ExecutedActionsKeys(p: Policy, log: seq<AuditEntry>)
    requires Legal(p, log)
    ensures DistinctActionKeys(ExecutedActions(log))
    ensures forall i :: 0 <= i < |ExecutedActions(log)| ==> ExecutedActions(log)[i].key in ExecutedKeys(log)
  {
    if log != [] { ExecutedActionsKeys(p, log[..|log| - 1]); }
  }

  /** Safety of whole runs: limits, one execution per key, duplicates, the halt, and what the outside
      world has seen. */
  lemma RunsAreSafe(p: Policy, calls: seq<Call>, run: RunId)
    requires FreshIds(START, p, calls)
    ensures var sys := RunAll(START, p, calls);
            var log := Log(sys.store.audit, run);
            && Spend(sys.store, run) <= MaxReal(p.cap, 0.0)
            && (forall subject :: Count(sys.store, run, subject) <= MaxInt(p.budget, 0))
            && (forall i, j :: 0 <= i < j < |log| && log[i].decision == Verdict(Executed) == log[j].decision ==>
                  log[i].action.key != log[j].action.key)
            && (forall j :: 0 <= j < |log| && log[j].decision == Verdict(Duplicate) ==>
                  exists i :: 0 <= i < j && log[i].decision == Verdict(Executed)
                      && log[i].action.key == log[j].action.key)
            && (forall j :: 0 <= j < |log| ==>
                  (log[j].decision == Verdict(RejectedBreakerOpen) <==>
                   exists i :: 0 <= i < j && log[i].decision == Verdict(RejectedSpendCap)))
  {
    var v := View(RunAll(START, p, calls), run);
    var log := v.log;
    ReachableIsSound(p, calls, run);
    LegalLogWithinLimits(p, log);
    forall subject ensures CountIn(v.counts, run, subject) <= MaxInt(p.budget, 0) {
      assert Used(Replayed(log), subject) == CountIn(v.counts, run, subject);
    }
    assert forall subject :: Count(RunAll(START, p, calls).store, run, subject) == CountIn(v.counts, run, subject);
    LogIsSafe(p, log);
  }

  lemma LogIsSafe(p: Policy, log: seq<AuditEntry>)
    requires Legal(p, log)
    ensures forall i, j :: 0 <= i < j < |log| && log[i].decision == Verdict(Executed) == log[j].decision ==>
              log[i].action.key != log[j].action.key
    ensures forall j :: 0 <= j < |log| && log[j].decision == Verdict(Duplicate) ==>
              exists i :: 0 <= i < j && log[i].decision == Verdict(Executed) && log[i].action.key == log[j].action.key
    ensures forall j :: 0 <= j < |log| ==>
              (log[j].decision == Verdict(RejectedBreakerOpen) <==>
               exists i :: 0 <= i < j && log[i].decision == Verdict(RejectedSpendCap))
  {
    forall i, j | 0 <= i < j < |log| && log[i].decision == Verdict(Executed) == log[j].decision
      ensures log[i].action.key != log[j].action.key
    {
      KeyExecutesOnce(p, log, i, j);
    }
    forall j | 0 <= j < |log| && log[j].decision == Verdict(Duplicate)
      ensures exists i :: 0 <= i < j && log[i].decision == Verdict(Executed) && log[i].action.key == log[j].action.key
    {
      DuplicateFollowsExecuted(p, log, j);
    }
    forall j | 0 <= j < |log|
      ensures log[j].decision == Verdict(RejectedBreakerOpen) <==>
              exists i :: 0 <= i < j && log[i].decision == Verdict(RejectedSpendCap)
    {
      BreakerHaltsTheRun(p, log, j);
    }
  }

  /** The outside world has seen each key of a run at most once, and has been charged exactly the spend. */
  lemma EffectsAreAccountedFor(p: Policy, calls: seq<Call>, run: RunId)
    requires FreshIds(START, p, calls)
    ensures var sys := RunAll(START, p, calls);
            var seen := EffectsOf(sys.effects, run);
            && DistinctActionKeys(seen)
            && TotalCost(seen) == Spend(sys.store, run)
            && seen == ExecutedActions(Log(sys.store.audit, run))
            && |seen| == |StoredKeys(sys.store, run)|
            && (forall i :: 0 <= i < |seen| ==> (run, seen[i].key) in sys.store.results)
  {
    var sys := RunAll(START, p, calls);
    var v := View(sys, run);
    ReachableIsSound(p, calls, run);
    ReplayedCost(v.log);
    ExecutedActionsKeys(p, v.log);
    ExecutedCountIsLength(v.log);
    assert v.stored.Keys == StoredKeys(sys.store, run);
    assert |v.stored| == |v.stored.Keys|;
    forall i | 0 <= i < |v.effects| ensures (run, v.effects[i].key) in sys.store.results {
      assert v.effects[i].key in ExecutedKeys(v.log);
    }
  }

  lemma {:induction false} ExecutedCountIsLength(log: seq<AuditEntry>)
    ensures Replayed(log).executedCount == |ExecutedActions(log)|
  {
    if log != [] { ExecutedCountIsLength(log[..|log| - 1]); }
  }

  /** "Every call appends exactly one audit entry" holds exactly unless the call reaches the handler
      lookup with a name nobody registered; then it appends none. */
  lemma OneEntryPerExecute(sys: System, p: Policy, run: RunId, registered: set<string>, a: Action, out: Outcome,
                           minted: ApprovalId)
    requires minted !in sys.store.approvals
    ensures var before := Log(sys.store.audit, run);
            var after := Log(CallOn(sys, p, Execute(run, registered, a, out, minted)).store.audit, run);
            if Open(sys.store, run) || (run, a.key) in sys.store.results || a.name in registered
            then |after| == |before| + 1 && after[..|before|] == before && after[|before|].action == a
            else after == before
  {
    var c := Execute(run, registered, a, out, minted);
    var cs := Commits(sys.store, p, c);
    var v := View(sys, run);
    CommitShape(sys.store, p, c);
    ViewOfApplyAll(sys, cs, run);
    LastWriteAppends(v, run, cs, Ask(sys.store, run, a), p, registered, a, out, minted);
  }

  lemma LastWriteAppends(v: RunView, run: RunId, cs: seq<Commit>, q: Answers, p: Policy, registered: set<string>,
                         a: Action, out: Outcome, minted: ApprovalId)
    requires cs == ChainCommits(q, p, run, registered, a, out, minted)
    ensures var log := OnViewAll(v, run, cs).log;
            if q.open || q.stored.Some? || a.name in registered
            then |log| == |v.log| + 1 && log[..|v.log|] == v.log && log[|v.log|].action == a
            else log == v.log
  {
    ChainEndsWithVerdict(q, p, run, registered, a, out, minted);
    if cs != [] {
      LogOfWrites(v, run, cs[..|cs| - 1]);
    }
  }
}
