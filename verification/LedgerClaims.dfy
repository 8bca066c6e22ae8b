/** What the ledger claims: every success a row claims has its effect in the world, but for an agent run without
    any effect, which is reported on the model's word. */
module LedgerClaims {
  import opened Wrappers
  import opened GuardModel
  import opened GuardRuns
  import opened RunViews
  import opened Backing
  import opened Isolation
  import opened AgentTools
  import opened PaymentRules
  import opened RecoveryTools
  import opened RuleStore
  import opened PipelineModel
  import opened PipelineRuns
  import A = AgentLoop
  import AgentRuns
  import C = GuardCrash

  // ---------------------------------------------------------------- what an agent run's trajectory says last

  lemma {:induction false} StatusIsLastEntry(g: A.Agent, entries: seq<AuditEntry>, steps: seq<A.Step>)
    requires AgentRuns.Reflects(g, entries, steps)
    ensures entries == [] ==> EffectStatus(steps) == None
    ensures entries != [] ==>
              && EffectStatus(steps).Some? && entries[|entries| - 1].decision == Verdict(EffectStatus(steps).value)
              && AgentRuns.IsBuilt(g, entries[|entries| - 1].action)
  {
    if steps != [] {
      var init, last := steps[..|steps| - 1], steps[|steps| - 1];
      if !last.decision.EffectTaken? {
        StatusIsLastEntry(g, entries, init);
      } else {
        assert AgentRuns.BuiltAt(g, entries[|entries| - 1].action, last.tool.value, last.index, last.args.value);
      }
    }
  }

  lemma {:induction false} NoEffectNoReply(g: A.Agent, replies: seq<Reply>, steps: seq<A.Step>)
    requires AgentRuns.ShowsReplies(g, replies, steps) && EffectStatus(steps) == None
    ensures replies == []
  {
    if steps != [] { NoEffectNoReply(g, replies, steps[..|steps| - 1]); }
  }

  lemma BuiltIsToolAction(settings: Settings, c: RecoveryCase, p: Provider, w: Work, a: Action)
    requires AgentRuns.IsBuilt(AgentFor(settings, c, p, w), a)
    ensures IsToolAction(a, c.paymentId)
  {
    var name, i, args :| name in Tools(c, p) && Tools(c, p)[name].Effect?
        && Tools(c, p)[name].build(i, args) == Some(a);
    ToolsBuildToolActions(c, p, name, i, args, a);
  }

  // ---------------------------------------------------------------- claims

  /** The row says that something was done about the payment. */
  predicate Claims(fields: Fields) {
    && (fields.path == Path.Deterministic || fields.path == Llm)
    && fields.outcome in {"resolved", "escalated", "duplicate"}
  }

  /** An effect of this kind on the payment has happened. */
  predicate KindHappened(sys: System, payment: RunId, name: string) {
    Happened(EffectsOf(sys.effects, payment), KeyFor(name, payment))
  }

  /** A claim with a status is backed by an effect of the claimed kind; one without is the model's word. */
  ghost predicate ClaimHolds(fields: Fields, sys: System, payment: RunId) {
    Claims(fields) ==>
      if fields.status == None then fields.path == Llm
      else
        && fields.status in {Some(Executed), Some(Duplicate)}
        && fields.action.Some? && fields.action.value in HANDLERS && KindHappened(sys, payment, fields.action.value)
        && (fields.outcome != "duplicate" ==>
             (fields.outcome == "escalated" <==> fields.action.value == "escalate_to_human"))
  }

  /** An action last audited as done has happened. */
  lemma LastEntryHappened(sys: System, run: RunId, e: AuditEntry)
    requires Backed(View(sys, run), run) && IsDone(e.decision) && IsToolAction(e.action, run)
    requires var log := Log(sys.store.audit, run); log != [] && log[|log| - 1] == e
    ensures KindHappened(sys, run, e.action.name)
  {
    assert View(sys, run).log == Log(sys.store.audit, run);
  }

  lemma AttemptStaysBacked(settings: Settings, sys: System, later: System, calls: seq<Call>, run: RunId)
    requires WellFormed(sys.store) && Backed(View(sys, run), run) && Explains(settings.policy, sys, later, calls)
    ensures StillBacked(sys, later, run)
  {
    WholesAccount(settings.policy, sys, later, calls);
    EventsKeepBacked(sys, settings.policy, C.Wholes(calls), run);
  }

  /** What an agent run that ended on an effect says of it. */
  lemma LastEffectTold(g: A.Agent, sys: System)
    requires A.MintsFresh(g, sys.store, 1) && A.AgentRun(g, sys).1.Stop?
    ensures var (t, signal) := A.AgentRun(g, sys);
            var since := AgentRuns.Since(g, sys, t.sys);
            if EffectStatus(t.steps) == None then since == [] && t.calls == [] && t.sys == sys
            else
              && since != [] && AgentRuns.IsBuilt(g, since[|since| - 1].action)
              && since[|since| - 1].decision == Verdict(EffectStatus(t.steps).value)
              && t.resolution == Some(since[|since| - 1].action.name)
  {
    var (t, _) := A.AgentRun(g, sys);
    var since := AgentRuns.Since(g, sys, t.sys);
    AgentRuns.TrajectoryMatchesAudit(g, sys);
    StatusIsLastEntry(g, since, t.steps);
    AgentRuns.LastEffectIsLastEntry(g, since, t.steps);
    if EffectStatus(t.steps) == None {
      NoEffectNoReply(g, Replies(sys, g.policy, t.calls), t.steps);
      RepliesLength(sys, g.policy, t.calls);
    }
  }

  lemma SinceEndsLog(g: A.Agent, start: System, s: System)
    requires AgentRuns.Since(g, start, s) != []
    ensures var log, since := Log(s.store.audit, g.run), AgentRuns.Since(g, start, s);
            log != [] && log[|log| - 1] == since[|since| - 1]
  {
  }

  lemma DoneVerdict(since: seq<AuditEntry>, declared: Value)
    requires since != [] && IsDone(since[|since| - 1].decision) && since[|since| - 1].action.name in HANDLERS
    ensures AgentRuns.Verdicted(since, declared)
         == if since[|since| - 1].action.name == "escalate_to_human" then A.Escalated else A.Resolved
  {
  }

  /** Fields that say what the last entry says. */
  lemma EntryBacksClaim(fields: Fields, sys: System, payment: RunId, e: AuditEntry, outcome: A.AgentOutcome)
    requires IsDone(e.decision) && e.action.name in HANDLERS && KindHappened(sys, payment, e.action.name)
    requires fields.status.Some? && e.decision == Verdict(fields.status.value) && fields.action == Some(e.action.name)
    requires fields.outcome == OutcomeName(outcome)
    requires outcome == if e.action.name == "escalate_to_human" then A.Escalated else A.Resolved
    ensures ClaimHolds(fields, sys, payment)
  {
  }

  /** What an agent run that claims an effect did last, it did. */
  lemma AgentEntryHappened(settings: Settings, sys: System, next: nat, c: RecoveryCase, p: Provider, w: Work,
                           since: seq<AuditEntry>)
    requires WellFormed(sys.store) && MintsNew(w, sys.store) && Backed(View(sys, c.paymentId), c.paymentId)
    requires since == AgentRuns.Since(AgentFor(settings, c, p, w), sys, RunAgent(settings, sys, next, c, p, w).sys)
        && since != []
    requires IsDone(since[|since| - 1].decision)
        && AgentRuns.IsBuilt(AgentFor(settings, c, p, w), since[|since| - 1].action)
    ensures IsToolAction(since[|since| - 1].action, c.paymentId)
    ensures KindHappened(RunAgent(settings, sys, next, c, p, w).sys, c.paymentId, since[|since| - 1].action.name)
  {
    var g, a := AgentFor(settings, c, p, w), RunAgent(settings, sys, next, c, p, w);
    AgentExplains(settings, sys, next, c, p, w);
    AttemptStaysBacked(settings, sys, a.sys, a.calls, c.paymentId);
    BuiltIsToolAction(settings, c, p, w, since[|since| - 1].action);
    SinceEndsLog(g, sys, a.sys);
    LastEntryHappened(a.sys, c.paymentId, since[|since| - 1]);
  }

  /** The last entry of a run that claims an effect. */
  lemma ClaimedEntry(g: A.Agent, sys: System) returns (e: AuditEntry)
    requires A.MintsFresh(g, sys.store, 1)
    requires var (t, signal) := A.AgentRun(g, sys);
             signal.Stop? && signal.outcome in {A.Resolved, A.Escalated} && EffectStatus(t.steps).Some?
    ensures var (t, signal) := A.AgentRun(g, sys);
            var since := AgentRuns.Since(g, sys, t.sys);
            && since != [] && e == since[|since| - 1]
            && IsDone(e.decision) && e.decision == Verdict(EffectStatus(t.steps).value)
            && AgentRuns.IsBuilt(g, e.action) && t.resolution == Some(e.action.name)
            && (e.action.name in HANDLERS ==>
                  signal.outcome == if e.action.name == "escalate_to_human" then A.Escalated else A.Resolved)
  {
    var (t, signal) := A.AgentRun(g, sys);
    var since := AgentRuns.Since(g, sys, t.sys);
    LastEffectTold(g, sys);
    AgentRuns.OutcomeIsTheLastVerdict(g, sys);
    e := since[|since| - 1];
    if e.action.name in HANDLERS { DoneVerdict(since, t.steps[|t.steps| - 1].observation); }
  }

  lemma AgentClaimHolds(settings: Settings, sys: System, next: nat, c: RecoveryCase, p: Provider, w: Work)
    requires WellFormed(sys.store) && MintsNew(w, sys.store) && Backed(View(sys, c.paymentId), c.paymentId)
    requires var a := RunAgent(settings, sys, next, c, p, w);
             a.fields.Some? && Claims(a.fields.value) && a.fields.value.status.Some?
    ensures var a := RunAgent(settings, sys, next, c, p, w); ClaimHolds(a.fields.value, a.sys, c.paymentId)
  {
    var g, a := AgentFor(settings, c, p, w), RunAgent(settings, sys, next, c, p, w);
    var e := ClaimedEntry(g, sys);
    AgentEntryHappened(settings, sys, next, c, p, w, AgentRuns.Since(g, sys, a.sys));
    EntryBacksClaim(a.fields.value, a.sys, c.paymentId, e, A.AgentRun(g, sys).1.outcome);
  }

  /** An agent's row claims only what happened, and one without a status followed from no executor call. */
  lemma AgentRowTellsTheTruth(settings: Settings, sys: System, next: nat, c: RecoveryCase, p: Provider, w: Work)
    requires WellFormed(sys.store) && MintsNew(w, sys.store) && Backed(View(sys, c.paymentId), c.paymentId)
    ensures var a := RunAgent(settings, sys, next, c, p, w);
            a.fields.Some? ==>
              && ClaimHolds(a.fields.value, a.sys, c.paymentId)
              && (a.fields.value.status == None ==> a.calls == [] && a.sys == sys)
  {
    var a := RunAgent(settings, sys, next, c, p, w);
    if a.fields.Some? {
      if a.fields.value.status == None {
        LastEffectTold(AgentFor(settings, c, p, w), sys);
      } else if Claims(a.fields.value) {
        AgentClaimHolds(settings, sys, next, c, p, w);
      }
    }
  }

  /** A call reported as executed or a duplicate has its effect. */
  lemma CallHappened(settings: Settings, sys: System, call: Call, g: A.Agent)
    requires WellFormed(sys.store) && Backed(View(sys, call.run), call.run) && g.policy == settings.policy
    requires Explains(settings.policy, sys, CallOn(sys, settings.policy, call), [call])
    requires call.Execute? && call.minted !in sys.store.approvals && IsToolAction(call.action, call.run)
    requires var reply := ReplyTo(sys.store, settings.policy, call); reply.Result? && IsDone(Verdict(reply.status))
    ensures KindHappened(CallOn(sys, settings.policy, call), call.run, call.action.name)
  {
    var later := CallOn(sys, settings.policy, call);
    AttemptStaysBacked(settings, sys, later, [call], call.run);
    AgentRuns.ExecuteAudits(g, sys, call);
    var log := Log(later.store.audit, call.run);
    LastEntryHappened(later, call.run, log[|log| - 1]);
  }

  /** The one call behind a rule's claim. */
  lemma RuleCallClaimed(settings: Settings, sys: System, c: RecoveryCase, p: Provider, w: Work, rule: LoadedRule)
    returns (call: Call)
    requires var a := RunRule(settings, sys, c, p, w, rule); a.fields.Some? && Claims(a.fields.value)
    ensures call.Execute? && call.run == c.paymentId && call.minted == w.minted(0)
        && IsToolAction(call.action, c.paymentId)
    ensures var a := RunRule(settings, sys, c, p, w, rule);
            var reply := ReplyTo(sys.store, settings.policy, call);
            && a.calls == [call] && a.sys == CallOn(sys, settings.policy, call)
            && reply.Result? && IsDone(Verdict(reply.status)) && a.fields.value.status == Some(reply.status)
            && a.fields.value.action == Some(call.action.name)
            && a.fields.value.outcome == OutcomeFor(reply.status, call.action.name)
  {
    var a := RunRule(settings, sys, c, p, w, rule);
    var name := RuleTool(rule.rule.action.name).value;
    var tool := Tools(c, p)[name];
    call := a.calls[0];
    ToolsBuildToolActions(c, p, name, 0, RuleArgs(c, tool.params), call.action);
  }

  /** So does a rule's row. */
  lemma RuleClaimHolds(settings: Settings, sys: System, c: RecoveryCase, p: Provider, w: Work, rule: LoadedRule)
    requires WellFormed(sys.store) && MintsNew(w, sys.store) && Backed(View(sys, c.paymentId), c.paymentId)
    ensures var a := RunRule(settings, sys, c, p, w, rule); a.fields.Some? ==>
          ClaimHolds(a.fields.value, a.sys, c.paymentId)
  {
    var a := RunRule(settings, sys, c, p, w, rule);
    if a.fields.Some? && Claims(a.fields.value) {
      var call := RuleCallClaimed(settings, sys, c, p, w, rule);
      RuleExplains(settings, sys, c, p, w, rule);
      CallHappened(settings, sys, call, AgentFor(settings, c, p, w));
    }
  }

  /** The word of the model is all it takes: a run it finishes at once is recorded as resolved, with nothing
      asked of the executor. */
  lemma NothingDoneIsResolved(settings: Settings, sys: System, next: nat, c: RecoveryCase, p: Provider, w: Work,
                              thought: string, resolution: Option<string>)
    requires settings.maxIterations >= 1 && !w.late(1) && resolution != Some("escalate_to_human")
    requires A.ParseDecision(w.llm(1, [])) == Some(A.Final(thought, resolution))
    ensures var a := RunAgent(settings, sys, next, c, p, w);
            a.calls == [] && a.sys == sys && a.fields.Some? && a.fields.value.outcome == "resolved"
                && a.fields.value.status == None
  {
    var g := AgentFor(settings, c, p, w);
    var (t, signal) := A.Turn(g, A.Began(sys), 1);
    assert signal == A.Stop(A.Resolved) && |t.steps| == 1 && t.steps[..0] == [];
    assert EffectStatus(t.steps[..0]) == None;
  }

  // ---------------------------------------------------------------- every run

  ghost predicate AllBacked(sys: System) {
    WellFormed(sys.store) && forall run :: Backed(View(sys, run), run)
  }

  ghost predicate AllClaimsHold(ledger: seq<LedgerRow>, sys: System) {
    forall i :: 0 <= i < |ledger| ==> ClaimHolds(ledger[i].fields, sys, ledger[i].paymentId)
  }

  lemma ActClaims(settings: Settings, sys: System, next: nat, e: InternalEvent, p: Provider, payment: Payment,
                  history: Option<History>, w: Work)
    requires AllBacked(sys) && MintsNew(w, sys.store) && payment.id == e.paymentId
    ensures var a := Act(settings, sys, next, e, p, payment, history, w);
            a.fields.Some? ==> ClaimHolds(a.fields.value, a.sys, e.paymentId)
  {
    var c := CaseOf(e, payment);
    assert Backed(View(sys, c.paymentId), c.paymentId);
    var chosen := Chosen(w.rules, PAYMENT_SCHEMA, BuildContext(e, payment.paymentMethod, history, w.hours));
    if chosen.Some? { RuleClaimHolds(settings, sys, c, p, w, chosen.value); }
    else { AgentRowTellsTheTruth(settings, sys, next, c, p, w); }
  }

  lemma AttemptClaims(settings: Settings, sys: System, next: nat, e: InternalEvent, w: Work)
    requires AllBacked(sys) && MintsNew(w, sys.store) && AnswersAsAsked(w)
    ensures var a := RouteAndAct(settings, sys, next, e, w);
            a.fields.Some? ==> ClaimHolds(a.fields.value, a.sys, e.paymentId)
  {
    if w.provider.Some? {
      var p := w.provider.value;
      var found := p.payment(0, e.paymentId);
      if found.Found? && HistoryFor(p, found.value.customerId).Some? {
        ActClaims(settings, sys, next, e, p, found.value, HistoryFor(p, found.value.customerId).value, w);
      }
    }
  }

  lemma ClaimsStillHold(ledger: seq<LedgerRow>, sys: System, later: System)
    requires AllClaimsHold(ledger, sys) && forall run :: StillBacked(sys, later, run)
    ensures AllClaimsHold(ledger, later)
  {
    forall i | 0 <= i < |ledger| ensures ClaimHolds(ledger[i].fields, later, ledger[i].paymentId) {
      assert ClaimHolds(ledger[i].fields, sys, ledger[i].paymentId) && StillBacked(sys, later, ledger[i].paymentId);
    }
  }

  lemma ProcessClaims(settings: Settings, l: Live, id: nat, w: Work)
    requires AllBacked(l.sys) && MintsNew(w, l.sys.store) && AnswersAsAsked(w)
    ensures var l' := Process(settings, l, id, w).0;
            && l.ledger <= l'.ledger
            && (|l'.ledger| > |l.ledger| ==>
                  && |l'.ledger| == |l.ledger| + 1
                  && ClaimHolds(l'.ledger[|l.ledger|].fields, l'.sys, l'.ledger[|l.ledger|].paymentId))
  {
    if id < |l.events| { AttemptClaims(settings, l.sys, |l.trajectories|, l.events[id], w); }
  }

  ghost predicate ClaimsKept(l: Live) { AllBacked(l.sys) && AllClaimsHold(l.ledger, l.sys) }

  lemma EventsKeepAllBacked(sys: System, p: Policy, events: seq<C.Event>)
    requires AllBacked(sys) && C.FreshEvents(sys, p, events)
    ensures AllBacked(C.RunEvents(sys, p, events)) && forall run :: StillBacked(sys, C.RunEvents(sys, p, events), run)
  {
    forall run ensures StillBacked(sys, C.RunEvents(sys, p, events), run) {
      assert Backed(View(sys, run), run);
      EventsKeepBacked(sys, p, events, run);
    }
    assert StillBacked(sys, C.RunEvents(sys, p, events), "");
    forall run ensures Backed(View(C.RunEvents(sys, p, events), run), run) {
      assert StillBacked(sys, C.RunEvents(sys, p, events), run);
    }
  }

  lemma HappeningKeepsBacked(settings: Settings, l: Live, h: Happening)
    requires AllBacked(l.sys) && FreshNow(l, h)
    ensures forall run :: StillBacked(l.sys, Next(settings, l, h).sys, run)
    ensures AllBacked(Next(settings, l, h).sys)
  {
    HappeningAccounts(settings, l, h);
    EventsKeepAllBacked(l.sys, settings.policy, EventsOf(settings, l, h));
  }

  lemma HappeningKeepsClaims(settings: Settings, l: Live, h: Happening)
    requires ClaimsKept(l) && FreshNow(l, h) && (h.Processing? ==> AnswersAsAsked(h.work))
    ensures ClaimsKept(Next(settings, l, h))
  {
    HappeningKeepsBacked(settings, l, h);
    ClaimsStillHold(l.ledger, l.sys, Next(settings, l, h).sys);
    if h.Processing? { ProcessClaims(settings, l, h.id, h.work); }
  }

  /** Over every run, with deaths before, between and inside executor calls: a row that claims an effect, by a
      rule or by the agent, now or as a duplicate, is on a payment that has seen an effect of that kind, unless
      it is an agent's row without any effect. */
  lemma {:induction false} LedgerTellsTheTruth(settings: Settings, hs: seq<Happening>)
    requires FreshRun(settings, hs) && forall h :: h in hs && h.Processing? ==> AnswersAsAsked(h.work)
    ensures ClaimsKept(RunLive(settings, hs))
  {
    if hs != [] {
      var init, h := hs[..|hs| - 1], hs[|hs| - 1];
      assert (forall g :: g in init ==> g in hs) && h in hs;
      LedgerTellsTheTruth(settings, init);
      HappeningKeepsClaims(settings, RunLive(settings, init), h);
    }
  }
}
