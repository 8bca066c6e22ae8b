/** The guarded executor, run step by step against either store, and the parity of the two. */
module Executor {
  import opened Wrappers
  import opened GuardModel
  import opened GuardStores

  /** The outside world: every handler call that came back, in order. */
  class World {
    var performed: seq<Performed>

    constructor ()
      ensures performed == []
    {
      performed := [];
    }

    method Perform(run: RunId, a: Action, outcome: Outcome)
      modifies this
      ensures performed == old(performed) + if outcome.Returned? then [Performed(run, a)] else []
    {
      if outcome.Returned? {
        performed := performed + [Performed(run, a)];
      }
    }
  }

  class GuardedExecutor {
    const runId: RunId
    const policy: Policy
    const store: GuardStore
    const world: World
    var handlers: set<string>

    constructor (runId: RunId, store: GuardStore, policy: Policy, world: World)
      ensures this.runId == runId && this.store == store && this.policy == policy && this.world == world
      ensures handlers == {}
    {
      this.runId, this.store, this.policy, this.world := runId, store, policy, world;
      handlers := {};
    }

    ghost function Sys(): System
      reads store.Object(), world
    {
      System(store.Model(), world.performed)
    }

    ghost predicate Valid()
      reads store.Object()
    {
      && store.Valid()
      && store.Object() != world
      && store.Object() != this
    }

    method Register(name: string)
      modifies this
      ensures handlers == old(handlers) + {name}
    {
      handlers := handlers + {name};
    }

    /** `outcome` is what the handler will do if it is called, `minted` the id a new approval would get. */
    method Execute(a: Action, outcome: Outcome, minted: ApprovalId) returns (reply: Reply)
      requires Valid() && minted !in store.Model().approvals
      modifies store.Object(), world
      ensures Valid()
      ensures Sys() == CallOn(old(Sys()), policy, GuardModel.Execute(runId, handlers, a, outcome, minted))
      ensures reply == ReplyTo(old(store.Model()), policy, GuardModel.Execute(runId, handlers, a, outcome, minted))
    {
      var early := AnswerEarly(a);
      if early.Some? { return early.value; }
      if a.name !in handlers { return UnknownAction(a.name); }
      reply := ExecuteNew(a, outcome, minted);
    }

    /** Steps 1 and 2: an open breaker and a stored result answer the call. */
    method AnswerEarly(a: Action) returns (reply: Option<Reply>)
      requires Valid()
      modifies store.Object()
      ensures Valid()
      ensures var st := old(store.Model());
              if Open(st, runId) then
                && Sys() == ApplyAll(old(Sys()), [Audit(runId, a, Verdict(RejectedBreakerOpen))])
                && reply == Some(Result(RejectedBreakerOpen, a.key, None, None))
              else if (runId, a.key) in st.results then
                && Sys() == ApplyAll(old(Sys()), [Audit(runId, a, Verdict(Duplicate))])
                && reply == Some(Result(Duplicate, a.key, Some(st.results[(runId, a.key)].result), None))
              else Sys() == old(Sys()) && reply == None
    {
      var finished;
      var open := store.IsBreakerOpen(runId);
      if open {
        finished := Finish(a, RejectedBreakerOpen, None, None);
        return Some(finished);
      }
      var existing := store.GetResult(runId, a.key);
      if existing.Some? {
        finished := Finish(a, Duplicate, Some(existing.value.result), None);
        return Some(finished);
      }
      return None;
    }

    /** Steps 3 to 6, for an action that has a handler and no stored result. */
    method ExecuteNew(a: Action, outcome: Outcome, minted: ApprovalId) returns (reply: Reply)
      requires Valid() && minted !in store.Model().approvals && (runId, a.key) !in store.Model().results
      modifies store.Object(), world
      ensures Valid()
      ensures var q := Ask(old(store.Model()), runId, a);
              if a.cost > policy.threshold && !q.approved then
                && Sys() == ApplyAll(old(Sys()), GateCommits(q, runId, a, minted))
                && reply == Result(PendingApproval, a.key, None,
                     Some(if q.approval.Some? then q.approval.value else minted))
              else
                && Sys() == ApplyAll(old(Sys()), SpendCommits(q, policy, runId, a, outcome))
                && reply == SpendReply(q, policy, a, outcome)
    {
      if a.cost > policy.threshold {
        var waiting := Gate(a, minted);
        if waiting.Some? {
          return Result(PendingApproval, a.key, None, waiting);
        }
      }
      reply := ExecuteWithinLimits(a, outcome);
    }

    /** Step 3: enqueue on first sight; audit and report the waiting record unless it is approved. */
    method Gate(a: Action, minted: ApprovalId) returns (waiting: Option<ApprovalId>)
      requires Valid() && minted !in store.Model().approvals
      modifies store.Object()
      ensures Valid()
      ensures IsApproved(old(store.Model()), runId, a.key) ==> waiting.None? && Sys() == old(Sys())
      ensures !IsApproved(old(store.Model()), runId, a.key) ==>
                && Sys() == ApplyAll(old(Sys()), GateCommits(Ask(old(store.Model()), runId, a), runId, a, minted))
                && waiting == Some(if (runId, a.key) in old(store.Model()).byKey
                                   then old(store.Model()).byKey[(runId, a.key)] else minted)
    {
      ghost var before := Sys();
      GateFacts(before.store, runId, a.key);
      ApplyAll2(before, Enqueue(Approval(minted, runId, a, Pending)), Audit(runId, a, Verdict(PendingApproval)));
      var approval := FindOrFile(a, minted);
      if approval.state != Approved {
        var reply := Finish(a, PendingApproval, None, Some(approval.id));
        return reply.approvalId;
      }
      return None;
    }

    /** The record on file for the action's key, or a new pending one. */
    method FindOrFile(a: Action, minted: ApprovalId) returns (approval: Approval)
      requires Valid() && minted !in store.Model().approvals
      modifies store.Object()
      ensures Valid()
      ensures var st := old(store.Model());
              if (runId, a.key) in st.byKey then Sys() == old(Sys())
                  && approval == st.approvals[st.byKey[(runId, a.key)]]
              else approval == Approval(minted, runId, a, Pending) && Sys() == Apply(old(Sys()), Enqueue(approval))
    {
      GateFacts(store.Model(), runId, a.key);
      var found := store.GetApproval(runId, a.key);
      if found.Some? { return found.value; }
      approval := store.CreatePending(runId, a, minted);
    }

    /** Steps 4 and 5: the per-subject budget, then the run's spend cap. */
    method ExecuteWithinLimits(a: Action, outcome: Outcome) returns (reply: Reply)
      requires Valid() && (runId, a.key) !in store.Model().results
      modifies store.Object(), world
      ensures Valid()
      ensures Sys() == ApplyAll(old(Sys()), SpendCommits(Ask(old(store.Model()), runId, a), policy, runId, a, outcome))
      ensures reply == SpendReply(Ask(old(store.Model()), runId, a), policy, a, outcome)
    {
      var used := store.SubjectExecutedCount(runId, a.subject);
      if used >= policy.budget {
        reply := Finish(a, RejectedActionBudget, None, None);
        return;
      }
      reply := ExecuteWithinCap(a, outcome);
    }

    method ExecuteWithinCap(a: Action, outcome: Outcome) returns (reply: Reply)
      requires Valid() && (runId, a.key) !in store.Model().results
      modifies store.Object(), world
      ensures Valid()
      ensures if Spend(old(store.Model()), runId) + a.cost > policy.cap then
                && Sys() == ApplyAll(old(Sys()), [Trip(runId), Audit(runId, a, Verdict(RejectedSpendCap))])
                && reply == Result(RejectedSpendCap, a.key, None, None)
              else Sys() == ApplyAll(old(Sys()), EffectCommits(runId, a, outcome)) && reply == EffectReply(a, outcome)
    {
      var spent := store.AccumulatedSpend(runId);
      if spent + a.cost > policy.cap {
        reply := RejectForCap(a);
        return;
      }
      reply := PerformAndRecord(a, outcome);
    }

    /** The spend cap also trips the run's breaker. */
    method RejectForCap(a: Action) returns (reply: Reply)
      requires Valid()
      modifies store.Object()
      ensures Valid()
      ensures Sys() == ApplyAll(old(Sys()), [Trip(runId), Audit(runId, a, Verdict(RejectedSpendCap))])
      ensures reply == Result(RejectedSpendCap, a.key, None, None)
    {
      ApplyAll2(Sys(), Trip(runId), Audit(runId, a, Verdict(RejectedSpendCap)));
      ghost var before := Sys();
      store.TripBreaker(runId, "spend cap would be exceeded");
      assert Sys() == Apply(before, Trip(runId));
      reply := Finish(a, RejectedSpendCap, None, None);
    }

    /** Step 6: call the handler once, then record the consumption and the result. */
    method PerformAndRecord(a: Action, outcome: Outcome) returns (reply: Reply)
      requires Valid() && (runId, a.key) !in store.Model().results
      modifies store.Object(), world
      ensures Valid()
      ensures Sys() == ApplyAll(old(Sys()), EffectCommits(runId, a, outcome))
      ensures reply == EffectReply(a, outcome)
    {
      ghost var before := Sys();
      world.Perform(runId, a, outcome);
      match outcome
      case Raised(e) =>
        assert Sys() == before;
        FailureLands(before, runId, a, e);
        reply := RecordFailure(a, e);
      case Returned(v) =>
        assert Sys() == Apply(before, Effect(runId, a));
        EffectLands(before, runId, a, v);
        reply := RecordSuccess(a, v);
    }

    method RecordFailure(a: Action, e: string) returns (reply: Reply)
      requires Valid()
      modifies store.Object()
      ensures Valid() && Sys() == Apply(old(Sys()), Audit(runId, a, HandlerError)) && reply == Propagated(e)
    {
      store.AppendAudit(runId, a, HandlerError);
      reply := Propagated(e);
    }

    method RecordSuccess(a: Action, v: Payload) returns (reply: Reply)
      requires Valid() && (runId, a.key) !in store.Model().results
      modifies store.Object()
      ensures Valid()
      ensures Sys() == Apply(Apply(Apply(old(Sys()),
                Record(runId, a.subject, a.cost)), Put(runId, a.key, IdemRecord(Executed, v))),
                Audit(runId, a, Verdict(Executed)))
      ensures reply == Result(Executed, a.key, Some(v), None)
    {
      ghost var before := Sys();
      store.RecordExecution(runId, a.subject, a.cost);
      assert Sys() == Apply(before, Record(runId, a.subject, a.cost));
      store.PutResult(runId, a.key, IdemRecord(Executed, v));
      assert Sys() == Apply(Apply(before, Record(runId, a.subject, a.cost)),
          Put(runId, a.key, IdemRecord(Executed, v)));
      reply := Finish(a, Executed, Some(v), None);
    }

    method Approve(id: ApprovalId, outcome: Outcome, minted: ApprovalId) returns (reply: Reply)
      requires Valid() && minted !in store.Model().approvals
      modifies store.Object(), world
      ensures Valid()
      ensures Sys() == CallOn(old(Sys()), policy, GuardModel.Approve(runId, handlers, id, outcome, minted))
      ensures reply == ReplyTo(old(store.Model()), policy, GuardModel.Approve(runId, handlers, id, outcome, minted))
    {
      ghost var before := Sys();
      var approval := RequireApproval(id);
      if approval.None? { return ApprovalError; }
      if approval.value.state != Approved {
        store.SetApprovalState(id, Approved);
        ghost var rest := ExecuteCommits(store.Model(), policy, runId, handlers, approval.value.action, outcome,
            minted);
        ApplyAllConcat(before, [Decide(id, Approved)], rest);
        ApplyAll1(before, Decide(id, Approved));
      }
      reply := Execute(approval.value.action, outcome, minted);
    }

    method RejectApproval(id: ApprovalId) returns (reply: Reply)
      requires Valid()
      modifies store.Object(), world
      ensures Valid()
      ensures Sys() == CallOn(old(Sys()), policy, Reject(runId, id))
      ensures reply == ReplyTo(old(store.Model()), policy, Reject(runId, id))
    {
      ghost var before := Sys();
      var approval := RequireApproval(id);
      if approval.None? { return ApprovalError; }
      store.SetApprovalState(id, Rejected);
      ApplyAll1(before, Decide(id, Rejected));
      return Done;
    }

    method RequireApproval(id: ApprovalId) returns (r: Option<Approval>)
      requires Valid()
      ensures r == if Owned(store.Model(), runId, id) then Some(store.Model().approvals[id]) else None
    {
      r := store.GetApprovalById(id);
      if r.Some? && r.value.run != runId { r := None; }
    }

    method Finish(a: Action, status: Status, result: Option<Payload>, approvalId: Option<ApprovalId>)
      returns (reply: Reply)
      requires Valid()
      modifies store.Object()
      ensures Valid()
      ensures Sys() == Apply(old(Sys()), Audit(runId, a, Verdict(status)))
      ensures Sys() == ApplyAll(old(Sys()), [Audit(runId, a, Verdict(status))])
      ensures reply == Result(status, a.key, result, approvalId)
    {
      ApplyAll1(Sys(), Audit(runId, a, Verdict(status)));
      store.AppendAudit(runId, a, Verdict(status));
      return Result(status, a.key, result, approvalId);
    }
  }

  lemma FailureLands(s: System, run: RunId, a: Action, e: string)
    ensures ApplyAll(s, EffectCommits(run, a, Raised(e))) == Apply(s, Audit(run, a, HandlerError))
  {
    ApplyAll1(s, Audit(run, a, HandlerError));
  }

  lemma EffectLands(s: System, run: RunId, a: Action, v: Payload)
    ensures ApplyAll(s, EffectCommits(run, a, Returned(v))) ==
            Apply(Apply(Apply(Apply(s, Effect(run, a)), Record(run, a.subject, a.cost)),
                Put(run, a.key, IdemRecord(Executed, v))),
                  Audit(run, a, Verdict(Executed)))
  {
    ApplyAll4(s, Effect(run, a), Record(run, a.subject, a.cost), Put(run, a.key, IdemRecord(Executed, v)),
              Audit(run, a, Verdict(Executed)));
  }

  lemma GateFacts(st: Store, run: RunId, key: Key)
    requires WellFormed(st)
    ensures (run, key) in st.byKey ==>
              st.byKey[(run, key)] in st.approvals && st.approvals[st.byKey[(run, key)]].id == st.byKey[(run, key)]
  {
    assert Indexed(st.approvals, st.byKey);
  }
}
