/** The approval gate: who can open it, what runs when it opens, and what a rejection does and
    does not prevent. */
module GuardApproval {
  import opened Wrappers
  import opened GuardModel
  import opened GuardRuns
  import opened Isolation

  /** Some write of the call is the effect of `a`. */
  predicate Performs(cs: seq<Commit>, run: RunId, a: Action) {
    exists i :: 0 <= i < |cs| && cs[i] == Effect(run, a)
  }

  /** Every guard of the chain lets `a` through. */
  predicate AllGuardsPass(q: Answers, p: Policy, registered: set<string>, a: Action) {
    && !q.open && q.stored.None? && a.name in registered
    && (a.cost > p.threshold ==> q.approved)
    && q.used < p.budget
    && q.spent + a.cost <= p.cap
  }

  lemma ChainPerforms(q: Answers, p: Policy, run: RunId, registered: set<string>, a: Action, out: Outcome,
                      minted: ApprovalId, b: Action)
    ensures Performs(ChainCommits(q, p, run, registered, a, out, minted), run, b)
       <==> b == a && out.Returned? && AllGuardsPass(q, p, registered, a)
  {
    var cs := ChainCommits(q, p, run, registered, a, out, minted);
    if out.Returned? && AllGuardsPass(q, p, registered, a) {
      assert cs[0] == Effect(run, a);
    }
  }

  // ---------------------------------------------------------------- how records change

  function DecisionOn(c: Call, run: RunId, id: ApprovalId, before: ApprovalState): ApprovalState {
    match c
    case Approve(r, _, i, _, _) => if r == run && i == id then Approved else before
    case Reject(r, i) => if r == run && i == id then Rejected else before
    case Execute(_, _, _, _, _) => before
  }

  function RecordsAfterOne(m: map<ApprovalId, Approval>, c: Commit): map<ApprovalId, Approval> {
    match c
    case Enqueue(r) => m[r.id := r]
    case Decide(id, s) => if id in m then m[id := m[id].(state := s)] else m
    case _ => m
  }

  function RecordsAfter(m: map<ApprovalId, Approval>, cs: seq<Commit>): map<ApprovalId, Approval> {
    if cs == [] then m else RecordsAfterOne(RecordsAfter(m, cs[..|cs| - 1]), cs[|cs| - 1])
  }

  lemma RecordsOfOne(sys: System, c: Commit)
    ensures Apply(sys, c).store.approvals == RecordsAfterOne(sys.store.approvals, c)
  {
  }

  lemma {:induction false} RecordsOfApply(sys: System, cs: seq<Commit>)
    ensures ApplyAll(sys, cs).store.approvals == RecordsAfter(sys.store.approvals, cs)
  {
    if cs != [] {
      RecordsOfApply(sys, cs[..|cs| - 1]);
      RecordsOfOne(ApplyAll(sys, cs[..|cs| - 1]), cs[|cs| - 1]);
    }
  }

  lemma {:induction false} RecordsAfterConcat(m: map<ApprovalId, Approval>, a: seq<Commit>, b: seq<Commit>)
    ensures RecordsAfter(m, a + b) == RecordsAfter(RecordsAfter(m, a), b)
    decreases |b|
  {
    if b == [] {
      assert a + b == a;
    } else {
      assert (a + b)[..|a + b| - 1] == a + b[..|b| - 1];
      RecordsAfterConcat(m, a, b[..|b| - 1]);
    }
  }

  /** What the chain itself does to the records: at most one new one, for the action it was given. */
  lemma ChainRecords(q: Answers, p: Policy, run: RunId, registered: set<string>, a: Action, out: Outcome,
                     minted: ApprovalId, m: map<ApprovalId, Approval>)
    ensures var m' := RecordsAfter(m, ChainCommits(q, p, run, registered, a, out, minted));
            m' == m || (m' == m[minted := Approval(minted, run, a, Pending)] && a.cost > p.threshold && !q.approved
                && q.approval.None?)
  {
    var cs := ChainCommits(q, p, run, registered, a, out, minted);
    if |cs| == 2 && cs[0].Enqueue? {
      assert cs[..1] == [cs[0]] && cs[..1][..0] == [];
      assert RecordsAfter(m, []) == m;
      assert RecordsAfter(m, cs[..1]) == m[minted := Approval(minted, run, a, Pending)];
    } else {
      OtherWritesKeepRecords(m, cs);
    }
  }

  lemma {:induction false} OtherWritesKeepRecords(m: map<ApprovalId, Approval>, cs: seq<Commit>)
    requires forall i :: 0 <= i < |cs| ==> !cs[i].Enqueue? && !cs[i].Decide?
    ensures RecordsAfter(m, cs) == m
  {
    if cs != [] { OtherWritesKeepRecords(m, cs[..|cs| - 1]); }
  }

  /** A stored record keeps its run, name, subject, key, cost and parameters for ever; its state is
      changed only by `approve` and `reject_approval` calls of its own run on its own id. */
  lemma CallOnRecord(sys: System, p: Policy, c: Call, id: ApprovalId)
    requires WellFormed(sys.store) && Fresh(sys.store, c) && id in sys.store.approvals
    ensures var r := sys.store.approvals[id];
            && id in CallOn(sys, p, c).store.approvals
            && CallOn(sys, p, c).store.approvals[id] == r.(state := DecisionOn(c, r.run, id, r.state))
  {
    var m := sys.store.approvals;
    var cs := Commits(sys.store, p, c);
    RecordsOfApply(sys, cs);
    match c
    case Execute(run, reg, a, out, minted) =>
      ChainRecords(Ask(sys.store, run, a), p, run, reg, a, out, minted, m);
    case Approve(run, reg, id', out, minted) =>
      if Owned(sys.store, run, id') {
        var a := m[id'].action;
        ChainRecords(Ask(sys.store, run, a), p, run, reg, a, out, minted, m);
        var decide := Decide(id', Approved);
        var st := ApplyToStore(sys.store, decide);
        ChainRecords(Ask(st, run, a), p, run, reg, a, out, minted, st.approvals);
        RecordsAfterDecision(m, decide);
        RecordsAfterConcat(m, [decide], ChainCommits(Ask(st, run, a), p, run, reg, a, out, minted));
      }
    case Reject(run, id') => RecordsAfterDecision(m, Decide(id', Rejected));
  }

  lemma RecordsAfterDecision(m: map<ApprovalId, Approval>, c: Commit)
    ensures RecordsAfter(m, [c]) == RecordsAfterOne(m, c)
  {
    assert [c][..0] == [];
    assert RecordsAfter(m, []) == m;
  }

  /** A record that appears is pending, was minted by this very call, and holds the call's own action. */
  lemma NewRecord(sys: System, p: Policy, c: Call, id: ApprovalId)
    requires WellFormed(sys.store) && Fresh(sys.store, c)
    requires id !in sys.store.approvals && id in CallOn(sys, p, c).store.approvals
    ensures c.Execute? && id == c.minted && c.action.cost > p.threshold
    ensures CallOn(sys, p, c).store.approvals[id] == Approval(id, c.run, c.action, Pending)
  {
    var m := sys.store.approvals;
    RecordsOfApply(sys, Commits(sys.store, p, c));
    match c
    case Execute(run, reg, a, out, minted) =>
      ChainRecords(Ask(sys.store, run, a), p, run, reg, a, out, minted, m);
    case Approve(run, reg, id', out, minted) =>
      if Owned(sys.store, run, id') {
        var a := m[id'].action;
        var decide := Decide(id', Approved);
        var st := ApplyToStore(sys.store, decide);
        assert Indexed(sys.store.approvals, sys.store.byKey);
        assert Ask(sys.store, run, a).approval.Some? && Ask(st, run, a).approval.Some?;
        ChainRecords(Ask(sys.store, run, a), p, run, reg, a, out, minted, m);
        ChainRecords(Ask(st, run, a), p, run, reg, a, out, minted, st.approvals);
        RecordsAfterDecision(m, decide);
        RecordsAfterConcat(m, [decide], ChainCommits(Ask(st, run, a), p, run, reg, a, out, minted));
      }
    case Reject(run, id') => RecordsAfterDecision(m, Decide(id', Rejected));
  }

  // ---------------------------------------------------------------- the gate over whole runs

  /** `id` was approved by its run's executor and not rejected since. */
  ghost predicate ApprovedSince(calls: seq<Call>, run: RunId, id: ApprovalId) {
    exists j :: 0 <= j < |calls| && Approves(calls[j], run, id)
                && forall k :: j < k < |calls| ==> !Rejects(calls[k], run, id)
  }

  predicate Approves(c: Call, run: RunId, id: ApprovalId) { c.Approve? && c.run == run && c.id == id }
  predicate Rejects(c: Call, run: RunId, id: ApprovalId) { c.Reject? && c.run == run && c.id == id }

  lemma ApprovedSinceLast(calls: seq<Call>, run: RunId, id: ApprovalId)
    requires calls != []
    ensures var init, c := calls[..|calls| - 1], calls[|calls| - 1];
            ApprovedSince(calls, run, id) <==>
                Approves(c, run, id) || (ApprovedSince(init, run, id) && !Rejects(c, run, id))
  {
    var init, c := calls[..|calls| - 1], calls[|calls| - 1];
    if Approves(c, run, id) {
      assert Approves(calls[|init|], run, id);
    } else if ApprovedSince(init, run, id) && !Rejects(c, run, id) {
      var j :| 0 <= j < |init| && Approves(init[j], run, id) && forall k :: j < k < |init| ==>
          !Rejects(init[k], run, id);
      assert Approves(calls[j], run, id);
      forall k | j < k < |calls| ensures !Rejects(calls[k], run, id) { if k < |init| { assert init[k] == calls[k]; } }
    }
    if ApprovedSince(calls, run, id) && !Approves(c, run, id) {
      var j :| 0 <= j < |calls| && Approves(calls[j], run, id) && forall k :: j < k < |calls| ==>
          !Rejects(calls[k], run, id);
      assert Approves(init[j], run, id) && !Rejects(calls[|init|], run, id);
      forall k | j < k < |init| ensures !Rejects(init[k], run, id) { assert calls[k] == init[k]; }
    }
  }

  /** Whatever record is approved after these calls was approved by its run and not rejected since. */
  ghost predicate Accounted(p: Policy, calls: seq<Call>, id: ApprovalId) {
    var approvals := RunAll(START, p, calls).store.approvals;
    id in approvals && approvals[id].state == Approved ==> ApprovedSince(calls, approvals[id].run, id)
  }

  lemma ApprovedStep(p: Policy, calls: seq<Call>, id: ApprovalId)
    requires calls != [] && FreshIds(START, p, calls) && Accounted(p, calls[..|calls| - 1], id)
    ensures Accounted(p, calls, id)
  {
    var init, c := calls[..|calls| - 1], calls[|calls| - 1];
    var sys := RunAll(START, p, init);
    RunsStayWellFormed(START, p, init);
    if id in CallOn(sys, p, c).store.approvals && id !in sys.store.approvals {
      NewRecord(sys, p, c, id);
    } else if id in sys.store.approvals {
      CallOnRecord(sys, p, c, id);
      ApprovedSinceLast(calls, sys.store.approvals[id].run, id);
    }
  }

  /** A record is approved only because its own run approved it, and did not reject it since. */
  lemma {:induction false} ApprovedRecordsWereApproved(p: Policy, calls: seq<Call>, id: ApprovalId)
    requires FreshIds(START, p, calls)
    ensures Accounted(p, calls, id)
  {
    if calls != [] {
      ApprovedRecordsWereApproved(p, calls[..|calls| - 1], id);
      ApprovedStep(p, calls, id);
    }
  }

  /** The record on file for (run, key), once the call is over. */
  ghost predicate OnFileApproved(st: Store, run: RunId, key: Key) {
    && IsApproved(st, run, key)
    && st.approvals[st.byKey[(run, key)]].run == run
    && st.approvals[st.byKey[(run, key)]].action.key == key
  }

  /** An effect above the threshold needs its (run, key) record approved, and `approve` performs
      exactly the action that was enqueued. */
  lemma GatedEffectNeedsApproval(sys: System, p: Policy, c: Call, a: Action)
    requires WellFormed(sys.store) && Fresh(sys.store, c)
    requires Performs(Commits(sys.store, p, c), c.run, a)
    ensures a.cost > p.threshold ==> OnFileApproved(CallOn(sys, p, c).store, c.run, a.key)
    ensures c.Approve? ==> Owned(sys.store, c.run, c.id) && a == sys.store.approvals[c.id].action
    ensures c.Execute? ==> a == c.action
  {
    assert Indexed(sys.store.approvals, sys.store.byKey);
    match c
    case Execute(run, reg, b, out, minted) =>
      ChainPerforms(Ask(sys.store, run, b), p, run, reg, b, out, minted, a);
      if a.cost > p.threshold { ApprovedStaysOnFile(sys, p, c, a.key); }
    case Approve(run, reg, id, out, minted) =>
      var b := sys.store.approvals[id].action;
      var decide := Decide(id, Approved);
      ChainPerforms(Ask(sys.store, run, b), p, run, reg, b, out, minted, a);
      if sys.store.approvals[id].state != Approved {
        var rest := ChainCommits(Ask(ApplyToStore(sys.store, decide), run, b), p, run, reg, b, out, minted);
        ChainPerforms(Ask(ApplyToStore(sys.store, decide), run, b), p, run, reg, b, out, minted, a);
        var i :| 0 <= i < |[decide] + rest| && ([decide] + rest)[i] == Effect(run, a);
        assert rest[i - 1] == Effect(run, a);
      }
      ApprovedStaysOnFile(sys, p, c, a.key);
  }

  lemma ApprovedStaysOnFile(sys: System, p: Policy, c: Call, key: Key)
    requires WellFormed(sys.store) && Fresh(sys.store, c) && !c.Reject?
    requires (c.run, key) in sys.store.byKey
    requires IsApproved(sys.store, c.run, key) || (c.Approve? && c.id == sys.store.byKey[(c.run, key)])
    ensures OnFileApproved(CallOn(sys, p, c).store, c.run, key)
  {
    assert Indexed(sys.store.approvals, sys.store.byKey);
    var id := sys.store.byKey[(c.run, key)];
    CallOnRecord(sys, p, c, id);
    CallStaysWellFormed(sys, p, c);
    assert Indexed(CallOn(sys, p, c).store.approvals, CallOn(sys, p, c).store.byKey);
  }

  /** Over any calls whatever: when the last of them causes an effect above the threshold, that key's
      record had been approved by its own run, with no rejection since. */
  lemma GatedEffectsWereApproved(p: Policy, calls: seq<Call>, a: Action)
    requires FreshIds(START, p, calls) && calls != []
    requires a.cost > p.threshold
    requires var c := calls[|calls| - 1];
             Performs(Commits(RunAll(START, p, calls[..|calls| - 1]).store, p, c), c.run, a)
    ensures var run := calls[|calls| - 1].run;
            var st := RunAll(START, p, calls).store;
            && (run, a.key) in st.byKey
            && ApprovedSince(calls, run, st.byKey[(run, a.key)])
  {
    var init, c := calls[..|calls| - 1], calls[|calls| - 1];
    RunsStayWellFormed(START, p, init);
    GatedEffectNeedsApproval(RunAll(START, p, init), p, c, a);
    var st := RunAll(START, p, calls).store;
    ApprovedRecordsWereApproved(p, calls, st.byKey[(c.run, a.key)]);
  }

  // ---------------------------------------------------------------- what a rejection prevents

  predicate RejectedOnFile(st: Store, run: RunId, key: Key) {
    (run, key) in st.byKey && st.byKey[(run, key)] in st.approvals
        && st.approvals[st.byKey[(run, key)]].state == Rejected
  }

  /** The two ways back in after a rejection. */
  predicate Reopens(p: Policy, c: Call, run: RunId, key: Key, id: ApprovalId) {
    || Approves(c, run, id)
    || (c.Execute? && c.run == run && c.action.key == key && c.action.cost <= p.threshold)
  }

  /** A rejected key "never executes" exactly as long as nobody approves the record after all and
      nobody offers the key at a cost that needs no approval. */
  lemma RejectedKeyStaysShut(sys: System, p: Policy, c: Call, key: Key, a: Action)
    requires WellFormed(sys.store) && Fresh(sys.store, c)
    requires RejectedOnFile(sys.store, c.run, key) && a.key == key
    requires !Reopens(p, c, c.run, key, sys.store.byKey[(c.run, key)])
    ensures !Performs(Commits(sys.store, p, c), c.run, a)
  {
    assert Indexed(sys.store.approvals, sys.store.byKey);
    if Performs(Commits(sys.store, p, c), c.run, a) {
      GatedEffectNeedsApproval(sys, p, c, a);
      if c.Execute? {
        ChainPerforms(Ask(sys.store, c.run, c.action), p, c.run, c.registered, c.action, c.outcome, c.minted, a);
      }
    }
  }

  /** Over any calls that do neither, however many and on whatever runs, the key stays rejected and
      never executes. */
  lemma {:induction false} RejectedStaysRejected(sys: System, p: Policy, calls: seq<Call>, run: RunId, key: Key,
                                                 id: ApprovalId)
    requires WellFormed(sys.store) && FreshIds(sys, p, calls)
    requires RejectedOnFile(sys.store, run, key) && sys.store.byKey[(run, key)] == id
    requires forall i :: 0 <= i < |calls| ==> !Reopens(p, calls[i], run, key, id)
    ensures RejectedOnFile(RunAll(sys, p, calls).store, run, key) && RunAll(sys, p, calls).store.byKey[(run, key)] == id
    ensures calls != [] && calls[|calls| - 1].run == run ==>
              forall a: Action | a.key == key ::
                !Performs(Commits(RunAll(sys, p, calls[..|calls| - 1]).store, p, calls[|calls| - 1]), run, a)
  {
    if calls != [] {
      var init, c := calls[..|calls| - 1], calls[|calls| - 1];
      RejectedStaysRejected(sys, p, init, run, key, id);
      var mid := RunAll(sys, p, init);
      RunsStayWellFormed(sys, p, init);
      assert Indexed(mid.store.approvals, mid.store.byKey);
      CallOnRecord(mid, p, c, id);
      CallStaysWellFormed(mid, p, c);
      assert Indexed(CallOn(mid, p, c).store.approvals, CallOn(mid, p, c).store.byKey);
      if c.run == run {
        forall a: Action | a.key == key ensures !Performs(Commits(mid.store, p, c), run, a) {
          RejectedKeyStaysShut(mid, p, c, key, a);
        }
      }
    }
  }

  // ---------------------------------------------------------------- exactly when a filed key executes

  /** The call causes an effect under the key. */
  ghost predicate ActsUnder(st: Store, p: Policy, c: Call, key: Key) {
    exists a: Action :: a.key == key && Performs(Commits(st, p, c), c.run, a)
  }

  /** The action the call offers to the chain. */
  function Offered(st: Store, c: Call): Option<Action> {
    match c
    case Execute(_, _, a, _, _) => Some(a)
    case Approve(run, _, id, _, _) => if Owned(st, run, id) then Some(st.approvals[id].action) else None
    case Reject(_, _) => None
  }

  /** The call offers an action under the key, its handler returns, and every guard but the gate lets it
      through. */
  predicate OnlyTheGateDecides(st: Store, p: Policy, c: Call, key: Key) {
    && Offered(st, c).Some? && c.outcome.Returned?
    && var a := Offered(st, c).value;
       var q := Ask(st, c.run, a);
       a.key == key && !q.open && q.stored.None? && a.name in c.registered && q.used < p.budget
           && q.spent + a.cost <= p.cap
  }

  /** The action needs no approval, or the record is approved once the call's own decision is in. */
  predicate GateOpens(st: Store, p: Policy, c: Call, id: ApprovalId) {
    && Offered(st, c).Some? && id in st.approvals
    && (Offered(st, c).value.cost <= p.threshold || DecisionOn(c, c.run, id, st.approvals[id].state) == Approved)
  }

  predicate Filed(st: Store, run: RunId, key: Key, id: ApprovalId) {
    && (run, key) in st.byKey && st.byKey[(run, key)] == id
    && id in st.approvals && st.approvals[id].run == run && st.approvals[id].action.key == key
  }

  lemma ApprovePerforms(st: Store, p: Policy, c: Call, a: Action)
    requires c.Approve? && Owned(st, c.run, c.id) && st.approvals[c.id].state != Approved
    ensures var b := st.approvals[c.id].action;
            Performs(Commits(st, p, c), c.run, a) <==>
              b == a && c.outcome.Returned?
                  && AllGuardsPass(Ask(ApplyToStore(st, Decide(c.id, Approved)), c.run, b), p, c.registered, b)
  {
    var b, decide := st.approvals[c.id].action, Decide(c.id, Approved);
    var rest := ChainCommits(Ask(ApplyToStore(st, decide), c.run, b), p, c.run, c.registered, b, c.outcome, c.minted);
    ChainPerforms(Ask(ApplyToStore(st, decide), c.run, b), p, c.run, c.registered, b, c.outcome, c.minted, a);
    if i :| 0 <= i < |rest| && rest[i] == Effect(c.run, a) { assert ([decide] + rest)[i + 1] == Effect(c.run, a); }
    if i :| 0 <= i < |[decide] + rest| && ([decide] + rest)[i] == Effect(c.run, a) {
      assert rest[i - 1] == Effect(c.run, a);
    }
  }

  /** A call performs an action exactly when it offers it, its handler returns and the chain lets it through,
      with the record approved by then if the call is an approval. */
  lemma CallPerforms(st: Store, p: Policy, c: Call, a: Action)
    requires WellFormed(st)
    ensures Performs(Commits(st, p, c), c.run, a) <==>
            && Offered(st, c) == Some(a) && c.outcome.Returned?
            && var q := Ask(st, c.run, a);
               AllGuardsPass(q.(approved := q.approved || c.Approve?), p, c.registered, a)
  {
    assert Indexed(st.approvals, st.byKey);
    if c.Execute? {
      ChainPerforms(Ask(st, c.run, c.action), p, c.run, c.registered, c.action, c.outcome, c.minted, a);
    } else if c.Approve? && Owned(st, c.run, c.id) {
      var b := st.approvals[c.id].action;
      if st.approvals[c.id].state == Approved {
        ChainPerforms(Ask(st, c.run, b), p, c.run, c.registered, b, c.outcome, c.minted, a);
      } else {
        ApprovePerforms(st, p, c, a);
      }
    }
  }

  /** The exact condition for an effect under a key whose record is on file, whatever the record's state. */
  lemma FiledKeyExecutesExactly(st: Store, p: Policy, c: Call, key: Key, id: ApprovalId)
    requires WellFormed(st) && Filed(st, c.run, key, id)
    ensures ActsUnder(st, p, c, key) <==> OnlyTheGateDecides(st, p, c, key) && GateOpens(st, p, c, id)
  {
    assert Indexed(st.approvals, st.byKey);
    if Offered(st, c).Some? { CallPerforms(st, p, c, Offered(st, c).value); }
    forall a: Action | Performs(Commits(st, p, c), c.run, a) ensures Offered(st, c) == Some(a) {
      CallPerforms(st, p, c, a);
    }
  }

  /** In particular for a rejected key: somebody approves it after all or offers it at a cost that needs no
      approval, and the remaining guards pass. */
  lemma RejectedKeyExecutesExactly(sys: System, p: Policy, c: Call, key: Key)
    requires WellFormed(sys.store) && RejectedOnFile(sys.store, c.run, key)
    ensures ActsUnder(sys.store, p, c, key) <==>
            Reopens(p, c, c.run, key, sys.store.byKey[(c.run, key)]) && OnlyTheGateDecides(sys.store, p, c, key)
  {
    assert Indexed(sys.store.approvals, sys.store.byKey);
    FiledKeyExecutesExactly(sys.store, p, c, key, sys.store.byKey[(c.run, key)]);
  }

  /** The record is on file, and approved exactly if these calls approved it and have not rejected it since. */
  ghost predicate FiledSince(st: Store, calls: seq<Call>, run: RunId, key: Key, id: ApprovalId) {
    Filed(st, run, key, id) && (st.approvals[id].state == Approved <==> ApprovedSince(calls, run, id))
  }

  lemma {:induction false} FiledOverRuns(sys: System, p: Policy, calls: seq<Call>, run: RunId, key: Key, id: ApprovalId)
    requires WellFormed(sys.store) && FreshIds(sys, p, calls)
    requires Filed(sys.store, run, key, id) && sys.store.approvals[id].state != Approved
    ensures FiledSince(RunAll(sys, p, calls).store, calls, run, key, id)
  {
    if calls != [] {
      FiledOverRuns(sys, p, calls[..|calls| - 1], run, key, id);
      FiledStep(sys, p, calls, run, key, id);
    }
  }

  lemma FiledStep(sys: System, p: Policy, calls: seq<Call>, run: RunId, key: Key, id: ApprovalId)
    requires WellFormed(sys.store) && calls != [] && FreshIds(sys, p, calls)
    requires FiledSince(RunAll(sys, p, calls[..|calls| - 1]).store, calls[..|calls| - 1], run, key, id)
    ensures FiledSince(RunAll(sys, p, calls).store, calls, run, key, id)
  {
    var init, c := calls[..|calls| - 1], calls[|calls| - 1];
    RunsStayWellFormed(sys, p, init);
    FiledAfterCall(RunAll(sys, p, init), p, c, run, key, id);
    ApprovedSinceLast(calls, run, id);
  }

  lemma FiledAfterCall(sys: System, p: Policy, c: Call, run: RunId, key: Key, id: ApprovalId)
    requires WellFormed(sys.store) && Fresh(sys.store, c) && Filed(sys.store, run, key, id)
    ensures Filed(CallOn(sys, p, c).store, run, key, id)
    ensures CallOn(sys, p, c).store.approvals[id].state == DecisionOn(c, run, id, sys.store.approvals[id].state)
  {
    CallOnRecord(sys, p, c, id);
    CallStaysWellFormed(sys, p, c);
    assert Indexed(CallOn(sys, p, c).store.approvals, CallOn(sys, p, c).store.byKey);
  }

  /** The n-th call causes an effect under the key exactly when it offers the key past every other guard, and
      either the action's cost needs no approval or the run has approved the record by then and not rejected
      it since. */
  ghost predicate ExactAt(sys: System, p: Policy, calls: seq<Call>, run: RunId, key: Key, id: ApprovalId, n: nat)
    requires n < |calls|
  {
    var st, c := RunAll(sys, p, calls[..n]).store, calls[n];
    ActsUnder(st, p, c, key) <==>
      && OnlyTheGateDecides(st, p, c, key)
      && (Offered(st, c).value.cost <= p.threshold || ApprovedSince(calls[..n + 1], run, id))
  }

  lemma LastIsExact(sys: System, p: Policy, calls: seq<Call>, run: RunId, key: Key, id: ApprovalId)
    requires WellFormed(sys.store) && calls != [] && FreshIds(sys, p, calls) && calls[|calls| - 1].run == run
    requires Filed(sys.store, run, key, id) && sys.store.approvals[id].state != Approved
    ensures var st, c := RunAll(sys, p, calls[..|calls| - 1]).store, calls[|calls| - 1];
            ActsUnder(st, p, c, key) <==>
              && OnlyTheGateDecides(st, p, c, key)
              && (Offered(st, c).value.cost <= p.threshold || ApprovedSince(calls, run, id))
  {
    var init, c := calls[..|calls| - 1], calls[|calls| - 1];
    FiledOverRuns(sys, p, init, run, key, id);
    RunsStayWellFormed(sys, p, init);
    FiledKeyExecutesExactly(RunAll(sys, p, init).store, p, c, key, id);
    ApprovedSinceLast(calls, run, id);
  }

  /** Over any calls whatever, from a state in which the key's record is rejected or undecided: which of the
      run's calls cause an effect under the key. */
  lemma FiledKeyExecutesExactlyOverRuns(sys: System, p: Policy, calls: seq<Call>, run: RunId, key: Key, id: ApprovalId,
                                        n: nat)
    requires WellFormed(sys.store) && FreshIds(sys, p, calls) && n < |calls| && calls[n].run == run
    requires Filed(sys.store, run, key, id) && sys.store.approvals[id].state != Approved
    ensures ExactAt(sys, p, calls, run, key, id, n)
  {
    var upto := calls[..n + 1];
    FreshPrefix(sys, p, calls, n + 1);
    LastIsExact(sys, p, upto, run, key, id);
    assert upto[..|upto| - 1] == calls[..n];
  }

  const REFUND_OF_TEN := Action("refund", "s", "k", 10.0, "{}")
  const ASK := Execute("r", {"refund"}, REFUND_OF_TEN, Returned("ok"), "apr")
  const REFUSE := Reject("r", "apr")
  const ALLOW := Approve("r", {"refund"}, "apr", Returned("ok"), "apr2")
  const GATE_AT_FIVE := Policy(5.0, 5, 100.0)

  /** After asking for the refund and refusing it. */
  lemma AskedAndRefused()
    ensures FreshIds(START, GATE_AT_FIVE, [ASK, REFUSE])
    ensures Replies(START, GATE_AT_FIVE, [ASK, REFUSE]) == [Result(PendingApproval, "k", None, Some("apr")), Done]
    ensures RunAll(START, GATE_AT_FIVE, [ASK, REFUSE]).store ==
            EMPTY_STORE.(approvals := map["apr" := Approval("apr", "r", REFUND_OF_TEN, Rejected)],
                byKey := map[("r", "k") := "apr"],
                         audit := [AuditEntry("r", 1, REFUND_OF_TEN, Verdict(PendingApproval))])
  {
    var record := Approval("apr", "r", REFUND_OF_TEN, Pending);
    RunSnoc(START, GATE_AT_FIVE, [], ASK);
    assert [] + [ASK] == [ASK];
    ApplyAll2(START, Enqueue(record), Audit("r", REFUND_OF_TEN, Verdict(PendingApproval)));
    var s1 := RunAll(START, GATE_AT_FIVE, [ASK]);
    assert s1.store.approvals == map["apr" := record];
    RunSnoc(START, GATE_AT_FIVE, [ASK], REFUSE);
    assert [ASK] + [REFUSE] == [ASK, REFUSE];
    ApplyAll1(s1, Decide("apr", Rejected));
  }

  /** The documentation of `reject_approval` says the action "will never execute under its key".
      Enqueue, reject, approve: it executes. */
  lemma RejectedActionCanExecute()
    ensures FreshIds(START, GATE_AT_FIVE, [ASK, REFUSE, ALLOW])
    ensures Replies(START, GATE_AT_FIVE, [ASK, REFUSE, ALLOW])
         == [Result(PendingApproval, "k", None, Some("apr")), Done, Result(Executed, "k", Some("ok"), None)]
  {
    AskedAndRefused();
    var s2 := RunAll(START, GATE_AT_FIVE, [ASK, REFUSE]);
    RunSnoc(START, GATE_AT_FIVE, [ASK, REFUSE], ALLOW);
    assert [ASK, REFUSE] + [ALLOW] == [ASK, REFUSE, ALLOW];
    assert "apr2" != "apr" by { assert |"apr2"| != |"apr"|; }
    assert IsApproved(ApplyToStore(s2.store, Decide("apr", Approved)), "r", "k");
  }
}
