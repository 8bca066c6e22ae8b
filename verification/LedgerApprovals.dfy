/** Which approval a ledger row names: the record of its payment's refund. */
module LedgerApprovals {
  import opened Wrappers
  import opened GuardModel
  import opened AgentTools
  import opened PaymentRules
  import opened RecoveryTools
  import opened RuleStore
  import opened PipelineModel
  import opened PipelineRuns
  import opened RefundRecords
  import A = AgentLoop
  import C = GuardCrash

  // ---------------------------------------------------------------- the approval an agent row waits for

  /** The action is filed and not approved. */
  predicate Waits(st: Store, run: RunId, key: Key) {
    (run, key) in st.byKey && !IsApproved(st, run, key)
  }

  lemma PendingReplyWaits(sys: System, p: Policy, call: Call)
    requires call.Execute? && ReplyTo(sys.store, p, call).Result?
        && ReplyTo(sys.store, p, call).status == PendingApproval
    ensures Waits(CallOn(sys, p, call).store, call.run, call.action.key)
    ensures ReplyTo(sys.store, p, call).approvalId
         == Some(CallOn(sys, p, call).store.byKey[(call.run, call.action.key)])
  {
    var q := Ask(sys.store, call.run, call.action);
    var cs := GateCommits(q, call.run, call.action, call.minted);
    assert Commits(sys.store, p, call) == cs;
    if q.approval.Some? {
      ApplyAll1(sys, cs[0]);
    } else {
      assert cs == [cs[0], cs[1]];
      ApplyAll2(sys, cs[0], cs[1]);
    }
  }

  /** A run whose last effect is pending waits for that effect's action. */
  ghost predicate WaitsForLast(g: A.Agent, s: A.Progress) {
    s.status == Some(PendingApproval) ==>
      && s.calls != [] && s.calls[|s.calls| - 1].Execute?
      && Waits(s.sys.store, g.run, s.calls[|s.calls| - 1].action.key)
  }

  lemma EffectWaits(g: A.Agent, s: A.Progress, i: nat, thought: string, tool: string, args: Args, action: Action)
    ensures var (t, signal) := A.TakeEffect(g, s, i, thought, tool, args, action); signal.Continue? ==>
          WaitsForLast(g, t)
  {
    var call := A.EffectCall(g, action, i);
    var reply := ReplyTo(s.sys.store, g.policy, call);
    if reply.Result? && reply.status == PendingApproval { PendingReplyWaits(s.sys, g.policy, call); }
  }

  lemma ToolWaits(g: A.Agent, s: A.Progress, i: nat, thought: string, tool: string, args: Args)
    requires WaitsForLast(g, s)
    ensures var (t, signal) := A.ToolTurn(g, s, i, thought, tool, args); signal.Continue? ==> WaitsForLast(g, t)
  {
    if tool in g.tools {
      var valid := Validated(g.tools[tool].params, args);
      if valid.Some? && g.tools[tool].Effect? && g.tools[tool].build(i, valid.value).Some? {
        EffectWaits(g, s, i, thought, tool, valid.value, g.tools[tool].build(i, valid.value).value);
      }
    }
  }

  lemma FollowWaits(g: A.Agent, s: A.Progress, i: nat, response: A.Response)
    requires WaitsForLast(g, s)
    ensures var (t, signal) := A.Follow(g, s, i, response); !signal.Raise? ==> WaitsForLast(g, t)
  {
    var choice := A.ParseDecision(response);
    if choice.Some? && choice.value.CallTool? {
      ToolWaits(g, s, i, choice.value.thought, choice.value.tool, choice.value.args);
    }
  }

  lemma TurnWaits(g: A.Agent, s: A.Progress, i: nat)
    requires WaitsForLast(g, s)
    ensures var (t, signal) := A.Turn(g, s, i); !signal.Raise? ==> WaitsForLast(g, t)
  {
    if !g.late(i) { FollowWaits(g, s.(asked := s.asked + 1), i, g.llm(i, s.history)); }
  }

  lemma {:induction false} RunWaits(g: A.Agent, s: A.Progress, i: nat)
    requires WaitsForLast(g, s)
    ensures var (t, signal) := A.RunFrom(g, s, i); !signal.Raise? ==> WaitsForLast(g, t)
    decreases g.maxIterations + 1 - i
  {
    if i <= g.maxIterations {
      TurnWaits(g, s, i);
      var (t, signal) := A.Turn(g, s, i);
      if signal.Continue? { RunWaits(g, t, i + 1); }
    }
  }

  /** A run that ends awaiting approval has a pending last effect. */
  lemma {:induction false} AwaitingIsPending(g: A.Agent, s: A.Progress, i: nat)
    ensures var (t, signal) := A.RunFrom(g, s, i); signal == A.Stop(A.AwaitingApproval) ==>
          t.status == Some(PendingApproval)
    decreases g.maxIterations + 1 - i
  {
    if i <= g.maxIterations {
      var (t, signal) := A.Turn(g, s, i);
      if signal.Continue? { AwaitingIsPending(g, t, i + 1); } else { StopsAwaiting(g, s, i); }
    }
  }

  lemma StopsAwaiting(g: A.Agent, s: A.Progress, i: nat)
    ensures var (t, signal) := A.Turn(g, s, i); signal == A.Stop(A.AwaitingApproval) ==>
          t.status == Some(PendingApproval)
  {
  }

  /** The newest of some approvals is one of them. */
  ghost predicate PicksOne(w: Work) { forall ids: set<ApprovalId> :: ids != {} ==> w.latest(ids) in ids }

  // ---------------------------------------------------------------- one attempt

  /** The world before an attempt: sound records, all of them gated, and a threshold that gates no free action. */
  ghost predicate Sound(settings: Settings, sys: System) {
    WellFormed(sys.store) && AllGated(settings.policy, sys.store) && settings.policy.threshold >= 0.0
  }

  lemma AttemptStaysSound(settings: Settings, sys: System, t: System, calls: seq<Call>)
    requires Sound(settings, sys) && Explains(settings.policy, sys, t, calls)
    ensures Sound(settings, t)
  {
    WholesAccount(settings.policy, sys, t, calls);
    EventsGrow(settings.policy, sys, C.Wholes(calls));
  }

  /** Whatever waits on a payment is its refund. */
  lemma WaitingIsRefund(settings: Settings, sys: System, run: RunId, key: Key)
    requires Sound(settings, sys) && Waits(sys.store, run, key)
    ensures key == KeyFor("refund", run)
  {
    var id := sys.store.byKey[(run, key)];
    assert Indexed(sys.store.approvals, sys.store.byKey);
    RecordsAreRefunds(settings.policy, sys.store, id);
  }

  /** A row that awaits approval is on a payment whose refund is on file and not approved, and names its record
      exactly if that is undecided; any other row names none. */
  ghost predicate NamesUndecided(fields: Fields, st: Store, run: RunId) {
    if fields.outcome != "pending_approval" then fields.approvalId.None?
    else
      && RefundOf(run) in st.byKey && st.byKey[RefundOf(run)] in st.approvals
      && var id := st.byKey[RefundOf(run)];
         && st.approvals[id].state != Approved
         && fields.approvalId == if st.approvals[id].state == Pending then Some(id) else None
  }

  /** The attempt's last executor call asked for the payment's refund. */
  predicate AskedForRefund(calls: seq<Call>, run: RunId) {
    calls != [] && calls[|calls| - 1].Execute? && calls[|calls| - 1].action.key == KeyFor("refund", run)
  }

  lemma AwaitingRunWaits(g: A.Agent, sys: System)
    requires A.AgentRun(g, sys).1 == A.Stop(A.AwaitingApproval)
    ensures var t := A.AgentRun(g, sys).0;
            && t.calls != [] && t.calls[|t.calls| - 1].Execute?
            && Waits(t.sys.store, g.run, t.calls[|t.calls| - 1].action.key)
  {
    RunWaits(g, A.Began(sys), 1);
    AwaitingIsPending(g, A.Began(sys), 1);
  }

  lemma NewestIsRefund(settings: Settings, sys: System, run: RunId, w: Work)
    requires Sound(settings, sys) && PicksOne(w) && Waits(sys.store, run, KeyFor("refund", run))
    ensures var id := sys.store.byKey[RefundOf(run)];
            && id in sys.store.approvals && sys.store.approvals[id].state != Approved
            && Newest(w, PendingOf(sys.store, run)) == if sys.store.approvals[id].state == Pending then Some(id)
                 else None
  {
    RefundWaitsAlone(settings.policy, sys.store, run);
    assert Indexed(sys.store.approvals, sys.store.byKey);
    if PendingOf(sys.store, run) != {} { assert w.latest(PendingOf(sys.store, run)) in PendingOf(sys.store, run); }
  }

  lemma AgentWaitsForRefund(settings: Settings, sys: System, next: nat, c: RecoveryCase, p: Provider, w: Work)
    requires Sound(settings, sys) && MintsNew(w, sys.store)
    requires A.AgentRun(AgentFor(settings, c, p, w), sys).1 == A.Stop(A.AwaitingApproval)
    ensures var a := RunAgent(settings, sys, next, c, p, w);
            && Sound(settings, a.sys) && AskedForRefund(a.calls, c.paymentId)
            && Waits(a.sys.store, c.paymentId, KeyFor("refund", c.paymentId))
  {
    var a := RunAgent(settings, sys, next, c, p, w);
    AgentExplains(settings, sys, next, c, p, w);
    AttemptStaysSound(settings, sys, a.sys, a.calls);
    AwaitingRunWaits(AgentFor(settings, c, p, w), sys);
    WaitingIsRefund(settings, a.sys, c.paymentId, a.calls[|a.calls| - 1].action.key);
  }

  /** The approval an agent's row names is the one its last effect waits for, and it names one exactly if that
      is undecided. */
  lemma AgentRowNamesItsApproval(settings: Settings, sys: System, next: nat, c: RecoveryCase, p: Provider, w: Work)
    requires Sound(settings, sys) && MintsNew(w, sys.store) && PicksOne(w)
    ensures var a := RunAgent(settings, sys, next, c, p, w);
            a.fields.Some? ==>
              && NamesUndecided(a.fields.value, a.sys.store, c.paymentId)
              && (a.fields.value.outcome == "pending_approval" ==> AskedForRefund(a.calls, c.paymentId))
  {
    var g, a := AgentFor(settings, c, p, w), RunAgent(settings, sys, next, c, p, w);
    if A.AgentRun(g, sys).1 == A.Stop(A.AwaitingApproval) {
      AgentWaitsForRefund(settings, sys, next, c, p, w);
      NewestIsRefund(settings, a.sys, c.paymentId, w);
    }
  }

  /** The approval a rule's row names is the record of the refund it asked for; any other row names none. */
  lemma RuleRowNamesItsApproval(settings: Settings, sys: System, c: RecoveryCase, p: Provider, w: Work,
                                rule: LoadedRule)
    requires Sound(settings, sys) && MintsNew(w, sys.store)
    ensures var a := RunRule(settings, sys, c, p, w, rule);
            a.fields.Some? ==>
              if a.fields.value.outcome != "pending_approval" then a.fields.value.approvalId.None?
              else
                && AskedForRefund(a.calls, c.paymentId)
                && RefundOf(c.paymentId) in a.sys.store.byKey
                && a.fields.value.approvalId == Some(a.sys.store.byKey[RefundOf(c.paymentId)])
  {
    var a := RunRule(settings, sys, c, p, w, rule);
    if a.fields.Some? && a.calls != [] {
      var call := a.calls[0];
      if ReplyTo(sys.store, settings.policy, call).status == PendingApproval {
        RuleExplains(settings, sys, c, p, w, rule);
        AttemptStaysSound(settings, sys, a.sys, a.calls);
        PendingReplyWaits(sys, settings.policy, call);
        WaitingIsRefund(settings, a.sys, call.run, call.action.key);
      }
    }
  }

  // ---------------------------------------------------------------- every run

  /** A row that awaits approval is on a payment whose refund is on file, and the only approval it may name,
      as a rule's row always does, is that refund's record. */
  ghost predicate NamesRefund(row: LedgerRow, st: Store) {
    if row.fields.outcome != "pending_approval" then row.fields.approvalId.None?
    else
      && RefundOf(row.paymentId) in st.byKey
      && (row.fields.approvalId == Some(st.byKey[RefundOf(row.paymentId)])
          || (row.fields.path == Llm && row.fields.approvalId.None?))
  }

  ghost predicate AllNameRefunds(ledger: seq<LedgerRow>, st: Store) {
    forall i :: 0 <= i < |ledger| ==> NamesRefund(ledger[i], st)
  }

  ghost predicate Usual(h: Happening) { h.Processing? ==> AnswersAsAsked(h.work) && PicksOne(h.work) }

  lemma AttemptNamesRefund(settings: Settings, sys: System, next: nat, id: nat, e: InternalEvent, w: Work)
    requires Sound(settings, sys) && MintsNew(w, sys.store) && PicksOne(w) && AnswersAsAsked(w)
    ensures var a := RouteAndAct(settings, sys, next, e, w);
            NamesRefund(RowFor(id, e, if a.fields.Some? then a.fields.value else FAILED), a.sys.store)
  {
    if w.provider.Some? {
      var p := w.provider.value;
      var found := p.payment(0, e.paymentId);
      if found.Found? && HistoryFor(p, found.value.customerId).Some? {
        var c := CaseOf(e, found.value);
        assert c.paymentId == e.paymentId;
        ActNamesRefund(settings, sys, next, e, p, found.value, HistoryFor(p, found.value.customerId).value, w);
      }
    }
  }

  lemma ActNamesRefund(settings: Settings, sys: System, next: nat, e: InternalEvent, p: Provider, payment: Payment,
                       history: Option<History>, w: Work)
    requires Sound(settings, sys) && MintsNew(w, sys.store) && PicksOne(w) && payment.id == e.paymentId
    ensures var a := Act(settings, sys, next, e, p, payment, history, w);
            a.fields.Some? ==> forall id :: NamesRefund(RowFor(id, e, a.fields.value), a.sys.store)
  {
    var c := CaseOf(e, payment);
    var chosen := Chosen(w.rules, PAYMENT_SCHEMA, BuildContext(e, payment.paymentMethod, history, w.hours));
    if chosen.Some? { RuleRowNamesItsApproval(settings, sys, c, p, w, chosen.value); }
    else { AgentRowNamesItsApproval(settings, sys, next, c, p, w); }
  }

  lemma KeptOnFile(ledger: seq<LedgerRow>, st: Store, later: Store)
    requires AllNameRefunds(ledger, st) && IndexKept(st, later)
    ensures AllNameRefunds(ledger, later)
  {
    forall i | 0 <= i < |ledger| ensures NamesRefund(ledger[i], later) {
      assert NamesRefund(ledger[i], st);
    }
  }

  lemma ProcessNamesRefund(settings: Settings, l: Live, id: nat, w: Work)
    requires Sound(settings, l.sys) && MintsNew(w, l.sys.store) && PicksOne(w) && AnswersAsAsked(w)
    ensures var l' := Process(settings, l, id, w).0;
            |l'.ledger| > |l.ledger| ==>
                |l'.ledger| == |l.ledger| + 1 && NamesRefund(l'.ledger[|l.ledger|], l'.sys.store)
    ensures l.ledger <= Process(settings, l, id, w).0.ledger
  {
    if id < |l.events| { AttemptNamesRefund(settings, l.sys, |l.trajectories|, id, l.events[id], w); }
  }

  ghost predicate NamesKept(settings: Settings, l: Live) {
    Sound(settings, l.sys) && AllNameRefunds(l.ledger, l.sys.store)
  }

  lemma HappeningStaysSound(settings: Settings, l: Live, h: Happening)
    requires Sound(settings, l.sys) && FreshNow(l, h)
    ensures Sound(settings, Next(settings, l, h).sys) && IndexKept(l.sys.store, Next(settings, l, h).sys.store)
  {
    HappeningAccounts(settings, l, h);
    EventsGrow(settings.policy, l.sys, EventsOf(settings, l, h));
  }

  lemma HappeningKeepsNames(settings: Settings, l: Live, h: Happening)
    requires NamesKept(settings, l) && FreshNow(l, h) && Usual(h)
    ensures NamesKept(settings, Next(settings, l, h))
  {
    HappeningStaysSound(settings, l, h);
    KeptOnFile(l.ledger, l.sys.store, Next(settings, l, h).sys.store);
    if h.Processing? { ProcessNamesRefund(settings, l, h.id, h.work); }
  }

  /** Over every run, with deaths before, between and inside executor calls: a row that awaits approval is on a
      payment whose refund is on file, the approval a row names is that refund's record, and no other row
      names one. */
  lemma {:induction false} RowsNameTheirApprovals(settings: Settings, hs: seq<Happening>)
    requires FreshRun(settings, hs) && settings.policy.threshold >= 0.0 && forall h :: h in hs ==> Usual(h)
    ensures NamesKept(settings, RunLive(settings, hs))
  {
    if hs != [] {
      var init, h := hs[..|hs| - 1], hs[|hs| - 1];
      assert (forall g :: g in init ==> g in hs) && h in hs;
      RowsNameTheirApprovals(settings, init);
      HappeningKeepsNames(settings, RunLive(settings, init), h);
    }
  }
}
