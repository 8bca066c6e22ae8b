/** What every call is told, in terms of what happened on its run before. */
module Verdicts {
  import opened Wrappers
  import opened GuardModel
  import opened GuardRuns
  import opened Replay
  import opened GuardSafety
  import opened GuardApproval

  // ---------------------------------------------------------------- history

  predicate Tripped(log: seq<AuditEntry>) {
    exists i :: 0 <= i < |log| && log[i].decision == Verdict(RejectedSpendCap)
  }

  predicate Done(log: seq<AuditEntry>, key: Key) {
    exists i :: 0 <= i < |log| && log[i].decision == Verdict(Executed) && log[i].action.key == key
  }

  function TimesFor(actions: seq<Action>, subject: Subject): nat {
    if actions == [] then 0
    else TimesFor(actions[..|actions| - 1], subject) + if actions[|actions| - 1].subject == subject then 1 else 0
  }

  /** The record of this run and key, if there is one, is approved. */
  ghost predicate HasApproved(st: Store, run: RunId, key: Key) {
    exists id :: id in st.approvals && OnFile(st, run, key, id) && st.approvals[id].state == Approved
  }

  predicate OnFile(st: Store, run: RunId, key: Key, id: ApprovalId) {
    id in st.approvals && st.approvals[id].run == run && st.approvals[id].action.key == key
  }

  lemma {:induction false} TrippedIsCounted(log: seq<AuditEntry>)
    ensures Replayed(log).breakerTripped <==> Tripped(log)
  {
    if log != [] {
      var init, e := log[..|log| - 1], log[|log| - 1];
      TrippedIsCounted(init);
      if Tripped(init) {
        var i :| 0 <= i < |init| && init[i].decision == Verdict(RejectedSpendCap);
        assert log[i].decision == Verdict(RejectedSpendCap);
      }
      if Tripped(log) && e.decision != Verdict(RejectedSpendCap) {
        var i :| 0 <= i < |log| && log[i].decision == Verdict(RejectedSpendCap);
        assert init[i].decision == Verdict(RejectedSpendCap);
      }
    }
  }

  lemma {:induction false} DoneIsKeyed(log: seq<AuditEntry>, key: Key)
    ensures key in ExecutedKeys(log) <==> Done(log, key)
  {
    if log != [] {
      var init, e := log[..|log| - 1], log[|log| - 1];
      DoneIsKeyed(init, key);
      if Done(init, key) {
        var i :| 0 <= i < |init| && init[i].decision == Verdict(Executed) && init[i].action.key == key;
        assert log[i].decision == Verdict(Executed) && log[i].action.key == key;
      }
      if Done(log, key) && !(e.decision == Verdict(Executed) && e.action.key == key) {
        var i :| 0 <= i < |log| && log[i].decision == Verdict(Executed) && log[i].action.key == key;
        assert init[i].decision == Verdict(Executed) && init[i].action.key == key;
      }
    }
  }

  lemma TimesSnoc(actions: seq<Action>, a: Action, subject: Subject)
    ensures TimesFor(actions + [a], subject) == TimesFor(actions, subject) + if a.subject == subject then 1 else 0
  {
    assert (actions + [a])[..|actions|] == actions;
  }

  lemma AbsorbUses(s: ReplayState, e: AuditEntry, subject: Subject)
    ensures Used(Absorb(s, e), subject) ==
            Used(s, subject) + if e.decision == Verdict(Executed) && e.action.subject == subject then 1 else 0
  {
  }

  lemma {:induction false} UsedIsCounted(log: seq<AuditEntry>, subject: Subject)
    ensures Used(Replayed(log), subject) == TimesFor(ExecutedActions(log), subject)
  {
    if log != [] {
      var init, e := log[..|log| - 1], log[|log| - 1];
      UsedIsCounted(init, subject);
      AbsorbUses(Replayed(init), e, subject);
      TimesSnoc(ExecutedActions(init), e.action, subject);
      assert ExecutedActions(init) + [] == ExecutedActions(init);
    }
  }

  lemma ApprovedIsOnFile(st: Store, run: RunId, key: Key)
    requires WellFormed(st)
    ensures IsApproved(st, run, key) <==> HasApproved(st, run, key)
  {
    assert Indexed(st.approvals, st.byKey);
    if IsApproved(st, run, key) { assert OnFile(st, run, key, st.byKey[(run, key)]); }
  }

  // ---------------------------------------------------------------- what a call is told

  /** What an executor knows of an action from its run's entries and records. */
  ghost predicate Remembers(q: Answers, st: Store, run: RunId, a: Action) {
    var log := Log(st.audit, run);
    && (q.open <==> Tripped(log))
    && (q.stored.Some? <==> Done(log, a.key))
    && (q.approved <==> HasApproved(st, run, a.key))
    && (q.approval.Some? <==> OnFileSomewhere(st, run, a.key))
    && (q.approval.Some? ==> OnFile(st, run, a.key, q.approval.value))
    && q.used == TimesFor(ExecutedActions(log), a.subject)
    && q.spent == TotalCost(ExecutedActions(log))
  }

  lemma CountersRemember(p: Policy, calls: seq<Call>, run: RunId, a: Action)
    requires FreshIds(START, p, calls)
    ensures var st := RunAll(START, p, calls).store;
            var q, log := Ask(st, run, a), Log(st.audit, run);
            && (q.open <==> Tripped(log)) && (q.stored.Some? <==> Done(log, a.key))
            && q.used == TimesFor(ExecutedActions(log), a.subject) && q.spent == TotalCost(ExecutedActions(log))
  {
    var log := Log(RunAll(START, p, calls).store.audit, run);
    ReachableIsSound(p, calls, run);
    TrippedIsCounted(log);
    DoneIsKeyed(log, a.key);
    UsedIsCounted(log, a.subject);
    ReplayedCost(log);
  }

  lemma RecordsRemember(st: Store, run: RunId, a: Action)
    requires WellFormed(st)
    ensures var q := Ask(st, run, a);
            && (q.approved <==> HasApproved(st, run, a.key))
            && (q.approval.Some? <==> OnFileSomewhere(st, run, a.key))
            && (q.approval.Some? ==> OnFile(st, run, a.key, q.approval.value))
  {
    ApprovedIsOnFile(st, run, a.key);
    assert Indexed(st.approvals, st.byKey);
    if OnFileSomewhere(st, run, a.key) {
      var id :| OnFile(st, run, a.key, id);
      assert st.byKey[(run, a.key)] == id;
    }
    if (run, a.key) in st.byKey { assert OnFile(st, run, a.key, st.byKey[(run, a.key)]); }
  }

  lemma AnswersRemember(p: Policy, calls: seq<Call>, run: RunId, a: Action)
    requires FreshIds(START, p, calls)
    ensures var st := RunAll(START, p, calls).store; Remembers(Ask(st, run, a), st, run, a)
  {
    RunsStayWellFormed(START, p, calls);
    CountersRemember(p, calls, run, a);
    RecordsRemember(RunAll(START, p, calls).store, run, a);
  }

  ghost predicate OnFileSomewhere(st: Store, run: RunId, key: Key) { exists id :: OnFile(st, run, key, id) }

  /** Some earlier call on the run executed the key, and its handler returned this. */
  ghost predicate ReturnedBefore(p: Policy, calls: seq<Call>, run: RunId, key: Key, result: Payload) {
    exists j :: 0 <= j < |calls| && ReturnedAt(p, calls, j, run, key, result)
  }

  ghost predicate ReturnedAt(p: Policy, calls: seq<Call>, j: nat, run: RunId, key: Key, result: Payload)
    requires j < |calls|
  {
    && calls[j].run == run && !calls[j].Reject? && calls[j].outcome == Returned(result)
    && PerformsKey(Commits(RunAll(START, p, calls[..j]).store, p, calls[j]), run, key)
  }

  ghost predicate PerformsKey(cs: seq<Commit>, run: RunId, key: Key) {
    exists a: Action :: Performs(cs, run, a) && a.key == key
  }

  /** A result is stored only behind the effect it is of. */
  lemma StoredByEffect(st: Store, p: Policy, c: Call, i: nat)
    requires i < |Commits(st, p, c)| && Commits(st, p, c)[i].Put?
    ensures !c.Reject? && c.outcome.Returned?
    ensures var put := Commits(st, p, c)[i];
            put.run == c.run && put.record == IdemRecord(Executed, c.outcome.result)
                && PerformsKey(Commits(st, p, c), c.run, put.key)
  {
    var cs := Commits(st, p, c);
    assert i >= 2 && cs[i - 2].Effect? && cs[i - 2].action.key == cs[i].key;
    assert Performs(cs, c.run, cs[i - 2].action);
  }

  lemma {:induction false} ResultsOfWrites(s: System, cs: seq<Commit>, rk: (RunId, Key))
    requires rk in ApplyAll(s, cs).store.results
    ensures (rk in s.store.results && ApplyAll(s, cs).store.results[rk] == s.store.results[rk])
            || exists i :: 0 <= i < |cs| && cs[i] == Put(rk.0, rk.1, ApplyAll(s, cs).store.results[rk])
  {
    if cs != [] {
      var init, last := cs[..|cs| - 1], cs[|cs| - 1];
      if last.Put? && (last.run, last.key) == rk {
        assert cs[|cs| - 1] == Put(rk.0, rk.1, ApplyAll(s, cs).store.results[rk]);
      } else {
        ResultsOfWrites(s, init, rk);
        if i :| 0 <= i < |init| && init[i] == Put(rk.0, rk.1, ApplyAll(s, init).store.results[rk]) {
          assert cs[i] == init[i];
        }
      }
    }
  }

  lemma StillReturned(p: Policy, calls: seq<Call>, run: RunId, key: Key, result: Payload)
    requires calls != [] && ReturnedBefore(p, calls[..|calls| - 1], run, key, result)
    ensures ReturnedBefore(p, calls, run, key, result)
  {
    var init := calls[..|calls| - 1];
    var j :| 0 <= j < |init| && ReturnedAt(p, init, j, run, key, result);
    assert init[..j] == calls[..j] && init[j] == calls[j];
    assert ReturnedAt(p, calls, j, run, key, result);
  }

  lemma {:induction false} StoredWasReturned(p: Policy, calls: seq<Call>, run: RunId, key: Key)
    requires FreshIds(START, p, calls) && (run, key) in RunAll(START, p, calls).store.results
    ensures ReturnedBefore(p, calls, run, key, RunAll(START, p, calls).store.results[(run, key)].result)
  {
    var init, c := calls[..|calls| - 1], calls[|calls| - 1];
    var before := RunAll(START, p, init);
    var cs, stored := Commits(before.store, p, c), RunAll(START, p, calls).store.results[(run, key)];
    ResultsOfWrites(before, cs, (run, key));
    if i :| 0 <= i < |cs| && cs[i] == Put(run, key, stored) {
      StoredByEffect(before.store, p, c, i);
      assert ReturnedAt(p, calls, |calls| - 1, run, key, stored.result);
    } else {
      StoredWasReturned(p, init, run, key);
      StillReturned(p, calls, run, key, stored.result);
    }
  }

  /** What the executor replies about an action, told from history: open breaker, duplicate with the result its
      handler returned then, unregistered, waiting under the record on file, over budget, over the cap, or what
      the handler does. */
  ghost predicate Foretold(p: Policy, calls: seq<Call>, st: Store, c: Call, a: Action, approved: bool, reply: Reply)
    requires !c.Reject?
  {
    var log := Log(st.audit, c.run);
    if Tripped(log) then reply == Result(RejectedBreakerOpen, a.key, None, None)
    else if Done(log, a.key) then
      exists result :: reply == Result(Duplicate, a.key, Some(result), None)
          && ReturnedBefore(p, calls, c.run, a.key, result)
    else if a.name !in c.registered then reply == UnknownAction(a.name)
    else if a.cost > p.threshold && !approved then
      && reply.Result? && reply.status == PendingApproval && reply.key == a.key && reply.result == None
           && reply.approvalId.Some?
      && if OnFileSomewhere(st, c.run, a.key) then OnFile(st, c.run, a.key, reply.approvalId.value)
         else reply.approvalId.value == c.minted
    else if TimesFor(ExecutedActions(log), a.subject) >= p.budget
    then reply == Result(RejectedActionBudget, a.key, None, None)
    else if TotalCost(ExecutedActions(log)) + a.cost > p.cap then reply == Result(RejectedSpendCap, a.key, None, None)
    else
      match c.outcome
      case Raised(e) => reply == Propagated(e)
      case Returned(v) => reply == Result(Executed, a.key, Some(v), None)
  }

  lemma ChainForetold(p: Policy, calls: seq<Call>, c: Call, a: Action, approved: bool)
    requires FreshIds(START, p, calls) && !c.Reject?
    ensures var st := RunAll(START, p, calls).store;
            Foretold(p, calls, st, c, a, approved,
                     ChainReply(Ask(st, c.run, a).(approved := approved), p, c.registered, a, c.outcome, c.minted))
  {
    var st := RunAll(START, p, calls).store;
    AnswersRemember(p, calls, c.run, a);
    if (c.run, a.key) in st.results { StoredWasReturned(p, calls, c.run, a.key); }
  }

  lemma ApprovingApproves(st: Store, run: RunId, id: ApprovalId)
    requires WellFormed(st) && Owned(st, run, id)
    ensures var a := st.approvals[id].action;
            Ask(ApplyToStore(st, Decide(id, Approved)), run, a) == Ask(st, run, a).(approved := true)
  {
    assert Indexed(st.approvals, st.byKey);
  }

  /** Over any calls whatever: the next `execute` is told what its run's entries and records make of its action;
      an `approve` is refused if the record is not its run's, and is otherwise told the same of the filed action,
      taken as approved. */
  lemma VerdictsTellHistory(p: Policy, calls: seq<Call>, c: Call)
    requires FreshIds(START, p, calls)
    ensures var st := RunAll(START, p, calls).store;
            match c
            case Execute(run, _, a, _, _) =>
              Foretold(p, calls, st, c, a, HasApproved(st, run, a.key), ReplyTo(st, p, c))
            case Approve(run, _, id, _, _) =>
              if id !in st.approvals || st.approvals[id].run != run then ReplyTo(st, p, c) == ApprovalError
              else Foretold(p, calls, st, c, st.approvals[id].action, true, ReplyTo(st, p, c))
            case Reject(run, id) =>
              ReplyTo(st, p, c) == if id in st.approvals && st.approvals[id].run == run then Reply.Done
                  else ApprovalError
  {
    var st := RunAll(START, p, calls).store;
    RunsStayWellFormed(START, p, calls);
    match c
    case Execute(run, _, a, _, _) =>
      ApprovedIsOnFile(st, run, a.key);
      ChainForetold(p, calls, c, a, HasApproved(st, run, a.key));
    case Approve(run, _, id, _, _) =>
      if Owned(st, run, id) {
        var a := st.approvals[id].action;
        assert Indexed(st.approvals, st.byKey);
        ApprovingApproves(st, run, id);
        ChainForetold(p, calls, c, a, true);
      }
    case Reject(_, _) =>
  }
}
