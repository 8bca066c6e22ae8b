/** Processing acts: what one event leads to, told from the event, what the provider answers, the stored rules and
    the executor's guards. */
module PipelineActs {
  import opened Wrappers
  import opened Rules
  import opened GuardModel
  import opened GuardRuns
  import opened Isolation
  import opened GuardApproval
  import opened AgentTools
  import opened PaymentRules
  import opened RecoveryTools
  import opened RuleStore
  import opened PipelineModel
  import opened PipelineRuns
  import A = AgentLoop
  import AgentRuns

  // ---------------------------------------------------------------- an event that is to be acted on

  /** A payment failure without a row, and no redelivery of one that was acted on. */
  ghost predicate Awaits(l: Live, id: nat) {
    && id < |l.events| && l.events[id].isFailure
    && (forall i :: 0 <= i < |l.ledger| ==> l.ledger[i].event != id)
    && (l.events[id].eventId != "" ==>
          forall i :: 0 <= i < |l.ledger| && Acted(l.ledger[i]) ==>
            l.ledger[i].provider != l.events[id].provider || l.ledger[i].eventId != l.events[id].eventId)
  }

  /** What the provider answers: the payment, and its customer's history if both are known. */
  predicate Enriched(w: Work, e: InternalEvent, payment: Payment, history: Option<History>) {
    && w.provider.Some? && w.provider.value.payment(0, e.paymentId) == Found(payment)
    && if payment.customerId.None? || payment.customerId == Some("") then history == None
       else
         var answer := w.provider.value.history(0, payment.customerId.value);
         (answer == NotFound && history == None) || (answer.Found? && history == Some(answer.value))
  }

  /** The new row for an event, behind the old ones. */
  predicate OneRowMore(l: Live, l': Live, id: nat, fields: Fields) {
    && id < |l.events|
    && l'.ledger == l.ledger + [LedgerRow(id, l.events[id].provider, l.events[id].eventId, l.events[id].paymentId,
         fields)]
  }

  predicate OnlyMarks(l: Live, l': Live, id: nat, mark: Mark) {
    id < |l.events| && l'.events == l.events[id := l.events[id].(mark := Some(mark))]
  }

  lemma AwaitsIsToAct(l: Live, id: nat)
    ensures Awaits(l, id) <==> ToAct(l, id)
  {
    ForEventIsExact(l.ledger, id);
    if id < |l.events| { ProcessedDeliveryIsExact(l.ledger, l.events[id].provider, l.events[id].eventId); }
  }

  lemma AwaitingIsActedOn(settings: Settings, l: Live, id: nat, w: Work, payment: Payment, history: Option<History>)
    requires Awaits(l, id) && Enriched(w, l.events[id], payment, history)
    ensures Process(settings, l, id, w).0
         == Handled(l, id, Act(settings, l.sys, |l.trajectories|, l.events[id], w.provider.value, payment, history, w))
  {
    AwaitsIsToAct(l, id);
  }

  // ---------------------------------------------------------------- the rule that decides

  lemma BestIsChosen(rows: seq<RuleRow>, schema: Schema, context: Context, i: nat)
    requires i < |rows| && Best(rows, schema, context, i)
    ensures Chosen(rows, schema, context) == Load(rows[i], schema)
  {
    RoutingPicksBest(rows, schema, context);
    assert Applies(rows[i], schema, context);
  }

  /** What a kind of action comes to on a payment: for whom, under which key, at what cost, asking for what. */
  function Intended(name: string, payment: Payment, p: Provider): Option<Action> {
    var subject := if payment.customerId.Some? && payment.customerId != Some("") then payment.customerId.value
        else payment.id;
    match name
    case "send_payment_link" =>
      Some(Action(name, subject, "link:" + payment.id, 0.0, p.amountText(payment.amount)))
    case "refund" =>
      var again := p.payment(0, payment.id);
      if !again.Found? then None
      else
        Some(Action(name, subject, "refund:" + payment.id, again.value.amount, p.amountText(again.value.amount)))
    case "escalate_to_human" => Some(Action(name, subject, "escalate:" + payment.id, 0.0, ""))
    case _ => None
  }

  /** The words of a row for what became of an action. */
  predicate Words(outcome: string, status: Status, name: string) {
    && (outcome == "pending_approval" <==> status == PendingApproval)
    && (outcome == "duplicate" <==> status == Duplicate)
    && (outcome == "rejected" <==> status in {RejectedActionBudget, RejectedSpendCap, RejectedBreakerOpen})
    && (outcome == "escalated" <==> status == Executed && name == "escalate_to_human")
    && (outcome == "resolved" <==> status == Executed && name != "escalate_to_human")
  }

  lemma OutcomeWords(status: Status, name: string)
    ensures Words(OutcomeFor(status, name), status, name)
  {
  }

  /** What a rule whose action is to be carried out leads to. */
  lemma RuleCalls(settings: Settings, sys: System, e: InternalEvent, payment: Payment, p: Provider, w: Work,
                  rule: LoadedRule)
    ensures var a, intended := RunRule(settings, sys, CaseOf(e, payment), p, w, rule),
        Intended(rule.rule.action.name, payment, p);
            if rule.rule.action.name !in HANDLERS then
              && a.sys == sys
              && a.fields == Some(Fields(Path.Deterministic, Some(rule.rule.action.name), "no_effect", None,
                                         Some((rule.key, rule.version)), None, None))
            else if intended.None? then a.sys == sys && a.fields == None
            else
              var call := Call.Execute(payment.id, HANDLERS, intended.value, w.outcomes(0), w.minted(0));
              a == CarryOut(settings, sys, CaseOf(e, payment), w,
                            Fields(Path.Deterministic, Some(rule.rule.action.name), "no_effect", None,
                                   Some((rule.key, rule.version)), None, None), intended.value)
              && a.sys == CallOn(sys, settings.policy, call)
    ensures RunRule(settings, sys, CaseOf(e, payment), p, w, rule).saved == None
  {
    var c := CaseOf(e, payment);
    if rule.rule.action.name in HANDLERS {
      var tool := RuleTool(rule.rule.action.name).value;
      var args := RuleArgs(c, Tools(c, p)[tool].params);
      assert Validated(Tools(c, p)[tool].params, args) == Some(args);
    }
  }

  /** What the guards make of a call on a registered action. */
  lemma GuardsDecide(sys: System, p: Policy, call: Call)
    requires call.Execute? && call.action.name in call.registered && call.minted !in sys.store.approvals
    ensures var reply := ReplyTo(sys.store, p, call);
            var passes := AllGuardsPass(Ask(sys.store, call.run, call.action), p, call.registered, call.action);
            && (!reply.Result? <==> passes && call.outcome.Raised?)
            && (reply.Result? && reply.status == Executed <==> passes && call.outcome.Returned?)
            && CallOn(sys, p, call).effects ==
               sys.effects + if passes && call.outcome.Returned? then [Performed(call.run, call.action)] else []
  {
    ExecutedMeansEffect(p, sys, call);
  }

  /** The entry an action's row goes by. */
  predicate Entered(before: System, after: System, payment: RunId, a: Action, d: Decision) {
    var log := Log(before.store.audit, payment);
    Log(after.store.audit, payment) == log + [AuditEntry(payment, |log| + 1, a, d)]
  }

  lemma CallIsEntered(settings: Settings, sys: System, call: Call, g: A.Agent)
    requires call.Execute? && call.action.name in call.registered && call.minted !in sys.store.approvals
    requires g.policy == settings.policy
    ensures var reply := ReplyTo(sys.store, settings.policy, call);
            && (reply.Result? ==>
                  Entered(sys, CallOn(sys, settings.policy, call), call.run, call.action, Verdict(reply.status)))
            && (!reply.Result? ==> Entered(sys, CallOn(sys, settings.policy, call), call.run, call.action,
                 HandlerError))
  {
    AgentRuns.ExecuteAudits(g, sys, call);
  }

  /** What carrying out an action on a payment leaves in the world and says in the row: the effect happens exactly
      if the guards let it through and the handler returns, the attempt fails exactly if they do and it raises,
      and the row says what was audited. */
  predicate CarriedOut(settings: Settings, before: System, after: System, payment: RunId, a: Action, outcome: Outcome,
                       fields: Fields)
  {
    var passes := AllGuardsPass(Ask(before.store, payment, a), settings.policy, HANDLERS, a);
    && after.effects == before.effects + (if passes && outcome.Returned? then [Performed(payment, a)] else [])
    && (fields.path == Failed <==> passes && outcome.Raised?)
    && (if fields.path == Failed then Entered(before, after, payment, a, HandlerError)
        else
          && fields.status.Some? && Entered(before, after, payment, a, Verdict(fields.status.value))
          && (fields.status == Some(Executed) <==> passes && outcome.Returned?)
          && Words(fields.outcome, fields.status.value, a.name))
  }

  lemma CarryingOut(settings: Settings, sys: System, c: RecoveryCase, w: Work, base: Fields, action: Action,
                    p: Provider)
    requires MintsNew(w, sys.store) && action.name in HANDLERS && base.path == Path.Deterministic
    ensures var a := CarryOut(settings, sys, c, w, base, action);
            var fields := if a.fields.Some? then a.fields.value else FAILED;
            && CarriedOut(settings, sys, a.sys, c.paymentId, action, w.outcomes(0), fields)
            && (fields.path != Failed ==>
                 fields.path == base.path && fields.action == base.action && fields.rule == base.rule
                                          && fields.trajectoryId == base.trajectoryId)
            && (fields.path == Failed ==> fields == FAILED)
  {
    var call := RuleCall(c, w, action);
    assert call.minted !in sys.store.approvals;
    GuardsDecide(sys, settings.policy, call);
    CallIsEntered(settings, sys, call, AgentFor(settings, c, p, w));
    var reply := ReplyTo(sys.store, settings.policy, call);
    if reply.Result? { OutcomeWords(reply.status, action.name); }
  }

  // ---------------------------------------------------------------- a rule applies

  /** What the rule leads to: nothing to carry out, nothing it could be carried out on, or its action. */
  ghost predicate RuleFollowed(settings: Settings, before: System, after: System, payment: Payment, w: Work,
                               rule: LoadedRule, fields: Fields)
    requires w.provider.Some?
  {
    var name := rule.rule.action.name;
    var intended := Intended(name, payment, w.provider.value);
    && (if name !in HANDLERS then after == before && fields.outcome == "no_effect" && fields.status == None
        else if intended.None? then after == before && fields.path == Failed
        else CarriedOut(settings, before, after, payment.id, intended.value, w.outcomes(0), fields))
    && (fields.path != Failed ==>
          && fields.path == Path.Deterministic && fields.action == Some(name)
               && fields.rule == Some((rule.key, rule.version))
          && fields.trajectoryId == None)
    && (fields.path == Failed ==> name in HANDLERS && fields == FAILED)
  }

  lemma RuleIsFollowed(settings: Settings, sys: System, e: InternalEvent, payment: Payment, w: Work, rule: LoadedRule)
    requires w.provider.Some? && MintsNew(w, sys.store)
    ensures var a := RunRule(settings, sys, CaseOf(e, payment), w.provider.value, w, rule);
            && RuleFollowed(settings, sys, a.sys, payment, w, rule, if a.fields.Some? then a.fields.value else FAILED)
            && a.saved == None
  {
    var p, name := w.provider.value, rule.rule.action.name;
    RuleCalls(settings, sys, e, payment, p, w, rule);
    var intended := Intended(name, payment, p);
    if name in HANDLERS && intended.Some? {
      var base := Fields(Path.Deterministic, Some(name), "no_effect", None, Some((rule.key, rule.version)), None, None);
      CarryingOut(settings, sys, CaseOf(e, payment), w, base, intended.value, p);
    }
  }

  /** The mark an event is left with. */
  predicate MarkTells(mark: Mark, fields: Fields) {
    && mark.rule == fields.rule && mark.action == fields.action
    && (mark.route == Some("deterministic") <==> fields.path == Path.Deterministic)
    && (mark.route == Some("escalate_to_agent") <==> fields.path == Llm)
    && (mark.route == None <==> fields.path == Failed)
  }

  lemma MarksTell(fields: Fields)
    requires fields.path != DuplicateDelivery
    ensures MarkTells(MarkFor(fields), fields)
  {
  }

  /** An event to act on, whose provider answers, with a stored rule that applies: the best such rule decides.
      Its action happens, once and to this payment, exactly if the guards let it through and the handler
      returns; the new row, and the event's mark, name the rule; no trajectory is saved. */
  lemma RuleDecides(settings: Settings, l: Live, id: nat, w: Work, payment: Payment, history: Option<History>, i: nat,
                    l': Live)
    requires Awaits(l, id) && Enriched(w, l.events[id], payment, history) && MintsNew(w, l.sys.store)
    requires i < |w.rules|
    requires Best(w.rules, PAYMENT_SCHEMA, BuildContext(l.events[id], payment.paymentMethod, history, w.hours), i)
    requires l' == Process(settings, l, id, w).0
    ensures l'.trajectories == l.trajectories
    ensures exists fields, mark ::
              && OneRowMore(l, l', id, fields) && OnlyMarks(l, l', id, mark) && MarkTells(mark, fields)
              && RuleFollowed(settings, l.sys, l'.sys, payment, w, Load(w.rules[i], PAYMENT_SCHEMA).value, fields)
  {
    var e, rule := l.events[id], Load(w.rules[i], PAYMENT_SCHEMA).value;
    AwaitingIsActedOn(settings, l, id, w, payment, history);
    BestIsChosen(w.rules, PAYMENT_SCHEMA, BuildContext(e, payment.paymentMethod, history, w.hours), i);
    RuleIsFollowed(settings, l.sys, e, payment, w, rule);
    var a := RunRule(settings, l.sys, CaseOf(e, payment), w.provider.value, w, rule);
    var fields := if a.fields.Some? then a.fields.value else FAILED;
    MarksTell(fields);
    assert l.trajectories + [] == l.trajectories;
    assert OneRowMore(l, l', id, fields) && OnlyMarks(l, l', id, MarkFor(fields));
  }

  lemma RuleIgnoresModel(settings: Settings, sys: System, c: RecoveryCase, p: Provider, w: Work, other: Work,
                         rule: LoadedRule)
    requires other == w.(llm := other.llm, late := other.late)
    ensures RunRule(settings, sys, c, p, w, rule) == RunRule(settings, sys, c, p, other, rule)
  {
  }

  /** And no model is asked: whatever the model would say, and whenever its deadline were, the same happens. */
  lemma RuleNeedsNoModel(settings: Settings, l: Live, id: nat, w: Work, other: Work, payment: Payment,
                         history: Option<History>, i: nat, l1: Live, l2: Live)
    requires Awaits(l, id) && Enriched(w, l.events[id], payment, history) && i < |w.rules|
    requires Best(w.rules, PAYMENT_SCHEMA, BuildContext(l.events[id], payment.paymentMethod, history, w.hours), i)
    requires other == w.(llm := other.llm, late := other.late)
    requires l1 == Process(settings, l, id, w).0 && l2 == Process(settings, l, id, other).0
    ensures l1 == l2
  {
    var e := l.events[id];
    AwaitingIsActedOn(settings, l, id, w, payment, history);
    AwaitingIsActedOn(settings, l, id, other, payment, history);
    BestIsChosen(w.rules, PAYMENT_SCHEMA, BuildContext(e, payment.paymentMethod, history, w.hours), i);
    RuleIgnoresModel(settings, l.sys, CaseOf(e, payment), w.provider.value, w, other,
        Load(w.rules[i], PAYMENT_SCHEMA).value);
  }

  // ---------------------------------------------------------------- no rule applies

  /** The agent's run on a payment. */
  function AgentOn(settings: Settings, e: InternalEvent, payment: Payment, p: Provider, w: Work): A.Agent {
    var reason := if e.reason.Some? then e.reason.value else "unknown";
    var c := RecoveryCase(payment.id, payment.amount, reason, payment.paymentMethod, payment.customerId,
        payment.orderId);
    A.Agent(payment.id, settings.policy, HANDLERS, Tools(c, p), settings.maxIterations, w.llm, w.late, w.outcomes,
        w.minted,
            w.detail, w.decode)
  }

  /** What an agent run leaves in the row: what it came to, or that it raised. */
  ghost predicate AgentTold(g: A.Agent, start: System, t: A.Progress, signal: A.Signal, kept: nat, fields: Fields) {
    && (fields.path == Failed <==> AgentRuns.EndedByRaise(g, start, t))
    && (fields.path == Failed ==> fields == FAILED)
    && (fields.path != Failed ==>
          && fields.path == Llm && fields.rule == None && fields.trajectoryId == Some(kept)
          && signal.Stop? && fields.outcome == OutcomeName(signal.outcome)
          && fields.action == t.resolution && fields.status == EffectStatus(t.steps))
  }

  lemma AgentTells(settings: Settings, sys: System, kept: nat, e: InternalEvent, payment: Payment, p: Provider, w: Work)
    requires MintsNew(w, sys.store)
    ensures var g := AgentOn(settings, e, payment, p, w);
            var (t, signal) := A.AgentRun(g, sys);
            var a := RunAgent(settings, sys, kept, CaseOf(e, payment), p, w);
            && a.sys == t.sys
            && AgentTold(g, sys, t, signal, kept, if a.fields.Some? then a.fields.value else FAILED)
            && a.saved == if signal.Stop? then Some(Trajectory(t.steps, signal.outcome, t.resolution)) else None
  {
    var g := AgentFor(settings, CaseOf(e, payment), p, w);
    assert AgentOn(settings, e, payment, p, w) == g;
    AgentRuns.RaisesExactly(g, sys);
    AgentRuns.TrajectoryMatchesAudit(g, sys);
    AgentEnds(g, sys);
  }

  lemma AgentEnds(g: A.Agent, sys: System)
    requires A.MintsFresh(g, sys.store, 1)
    ensures A.AgentRun(g, sys).1.Stop? <==> !AgentRuns.EndedByRaise(g, sys, A.AgentRun(g, sys).0)
  {
    AgentRuns.RaisesExactly(g, sys);
    AgentRuns.TrajectoryMatchesAudit(g, sys);
  }

  lemma NoneAppliesNoneChosen(rows: seq<RuleRow>, schema: Schema, context: Context)
    requires forall i :: 0 <= i < |rows| ==> !Applies(rows[i], schema, context)
    ensures Chosen(rows, schema, context) == None
  {
    RoutingPicksBest(rows, schema, context);
  }

  /** An event to act on, whose provider answers, with no stored rule that applies: the agent is run on the
      payment, and the world is what it made of it. The row fails exactly if the run raised; otherwise it
      tells what the run came to and names its trajectory, which is saved. */
  lemma AgentTakesOver(settings: Settings, l: Live, id: nat, w: Work, payment: Payment, history: Option<History>,
                       l': Live)
    requires Awaits(l, id) && Enriched(w, l.events[id], payment, history) && MintsNew(w, l.sys.store)
    requires var context := BuildContext(l.events[id], payment.paymentMethod, history, w.hours);
             forall i :: 0 <= i < |w.rules| ==> !Applies(w.rules[i], PAYMENT_SCHEMA, context)
    requires l' == Process(settings, l, id, w).0
    ensures var g := AgentOn(settings, l.events[id], payment, w.provider.value, w);
            var (t, signal) := A.AgentRun(g, l.sys);
            && l'.sys == t.sys
            && l'.trajectories ==
               l.trajectories + (if signal.Stop? then [Trajectory(t.steps, signal.outcome, t.resolution)] else [])
            && exists fields, mark :: OneRowMore(l, l', id, fields) && OnlyMarks(l, l', id, mark)
                 && MarkTells(mark, fields)
                 && AgentTold(g, l.sys, t, signal, |l.trajectories|, fields)
  {
    var e := l.events[id];
    AwaitingIsActedOn(settings, l, id, w, payment, history);
    NoneAppliesNoneChosen(w.rules, PAYMENT_SCHEMA, BuildContext(e, payment.paymentMethod, history, w.hours));
    AgentTells(settings, l.sys, |l.trajectories|, e, payment, w.provider.value, w);
    var a := RunAgent(settings, l.sys, |l.trajectories|, CaseOf(e, payment), w.provider.value, w);
    var fields := if a.fields.Some? then a.fields.value else FAILED;
    MarksTell(fields);
    assert OneRowMore(l, l', id, fields) && OnlyMarks(l, l', id, MarkFor(fields));
  }

  /** The provider could not be reached for something it was asked at that moment. */
  ghost predicate ProviderFailed(p: Provider, i: nat) {
    exists id :: FailedFor(p, i, id)
  }

  predicate FailedFor(p: Provider, i: nat, id: string) {
    p.payment(i, id).Unreachable? || p.order(i, id).Unreachable? || p.history(i, id).Unreachable?
  }

  lemma ReadRaisesFor(c: RecoveryCase, p: Provider, tool: string, i: nat, args: Args)
    requires tool in Tools(c, p) && Tools(c, p)[tool].Read? && Tools(c, p)[tool].handler(i, args).None?
    ensures ProviderFailed(p, i)
  {
    if tool == "fetch_payment" {
      assert FailedFor(p, i, TextArg(args, "payment_id"));
    } else if tool == "fetch_order" {
      assert FailedFor(p, i, TextArg(args, "order_id"));
    } else {
      assert tool == "fetch_customer_history";
      assert FailedFor(p, i, TextArg(args, "customer_id"));
    }
  }

  lemma UnansweredWasRaised(st: Store, p: Policy, call: Call)
    requires call.Execute? && call.action.name in call.registered && !ReplyTo(st, p, call).Result?
    ensures call.outcome.Raised?
  {
  }

  /** What a run on the payment tools raises for: a provider that could not be reached, or an effect handler that
      was reached and raised; never a name without a handler. */
  lemma OnlyProvidersAndHandlersRaise(settings: Settings, e: InternalEvent, payment: Payment, p: Provider, w: Work,
                                      start: System, t: A.Progress)
    requires AgentRuns.EndedByRaise(AgentOn(settings, e, payment, p, w), start, t)
    ensures w.outcomes(t.asked).Raised? || ProviderFailed(p, t.asked)
  {
    var g := AgentOn(settings, e, payment, p, w);
    var choice := A.ParseDecision(g.llm(t.asked, AgentRuns.Projected(t.steps))).value;
    var tool, args := g.tools[choice.tool], choice.args;
    if tool.Read? {
      ReadRaisesFor(CaseOf(e, payment), p, choice.tool, t.asked, args);
    } else {
      var action, n := tool.build(t.asked, args).value, |t.calls| - 1;
      ToolsBuildToolActions(CaseOf(e, payment), p, choice.tool, t.asked, args, action);
      RepliesLength(start, g.policy, t.calls);
      UnansweredWasRaised(RunAll(start, g.policy, t.calls[..n]).store, g.policy, t.calls[n]);
    }
  }

  // ---------------------------------------------------------------- nothing to act on, or nothing to act with

  predicate Unanswered(w: Work, e: InternalEvent) {
    || w.provider.None?
    || var p := w.provider.value;
       var found := p.payment(0, e.paymentId);
       || !found.Found?
       || (found.value.customerId.Some? && found.value.customerId != Some("")
           && p.history(0, found.value.customerId.value).Unreachable?)
  }

  /** There is nothing in between. */
  lemma AnsweredOrNot(w: Work, e: InternalEvent) returns (payment: Payment, history: Option<History>)
    ensures Unanswered(w, e) <==> !Enriched(w, e, payment, history)
  {
    payment, history := Payment("", 0.0, "", "", None, None, None), None;
    if !Unanswered(w, e) {
      payment := w.provider.value.payment(0, e.paymentId).value;
      if payment.customerId.Some? && payment.customerId != Some("") {
        var answer := w.provider.value.history(0, payment.customerId.value);
        if answer.Found? { history := Some(answer.value); }
      }
    }
  }

  lemma UnansweredIsFailed(settings: Settings, l: Live, id: nat, w: Work)
    requires Awaits(l, id) && Unanswered(w, l.events[id])
    ensures Process(settings, l, id, w).0 == Handled(l, id, Attempt(l.sys, [], None, None))
  {
    AwaitsIsToAct(l, id);
    UnansweredRaises(settings, l.sys, |l.trajectories|, l.events[id], w);
  }

  lemma UnansweredRaises(settings: Settings, sys: System, next: nat, e: InternalEvent, w: Work)
    requires Unanswered(w, e)
    ensures RouteAndAct(settings, sys, next, e, w) == Attempt(sys, [], None, None)
  {
  }

  /** Where the provider is unknown, or does not find the payment, or fails on it or on the customer's history,
      the event is recorded as failed and nothing else happens. */
  lemma FailedLookupsFail(settings: Settings, l: Live, id: nat, w: Work, l': Live)
    requires Awaits(l, id) && Unanswered(w, l.events[id])
    requires l' == Process(settings, l, id, w).0
    ensures l'.sys == l.sys && l'.trajectories == l.trajectories && OneRowMore(l, l', id, FAILED)
    ensures exists mark :: OnlyMarks(l, l', id, mark) && MarkTells(mark, FAILED)
  {
    UnansweredIsFailed(settings, l, id, w);
    assert l.trajectories + [] == l.trajectories;
    MarksTell(FAILED);
    assert OnlyMarks(l, l', id, MarkFor(FAILED));
  }

  /** An event that is unknown, or no payment failure, is left alone. */
  lemma OthersAreLeftAlone(settings: Settings, l: Live, id: nat, w: Work)
    requires forall i :: 0 <= i < |l.ledger| ==> l.ledger[i].event != id
    requires id >= |l.events| || !l.events[id].isFailure
    ensures Process(settings, l, id, w) == (l, None)
  {
    ForEventIsExact(l.ledger, id);
  }

  /** What rules see of an event: the event's reason and amount, the payment's method, and what is known of the
      customer and of the time since. */
  lemma ContextIsOfTheEvent(e: InternalEvent, paymentMethod: string, history: Option<History>, hours: Option<real>)
    ensures var context := BuildContext(e, paymentMethod, history, hours);
            && Shows(context, "failure_reason", Some(Str(if e.reason.None? then "unknown" else e.reason.value)))
            && Shows(context, "amount_inr", Some(Num(e.amount))) && Shows(context, "method", Some(Str(paymentMethod)))
            && Shows(context, "customer_successful_payments",
                      if history.None? then None else Some(Num(history.value.successful as real)))
            && Shows(context, "customer_failed_payments",
                      if history.None? then None else Some(Num(history.value.failed as real)))
            && Shows(context, "hours_since_last_attempt",
                      if hours.None? then None else Some(Num(if hours.value < 0.0 then 0.0 else hours.value)))
            && context.Keys <= PAYMENT_SCHEMA.fields.Keys - {"attempt_number"}
  {
  }

  predicate Shows(context: Context, field: string, value: Option<Json>) {
    if value.None? then field !in context else field in context && context[field] == value.value
  }
}
