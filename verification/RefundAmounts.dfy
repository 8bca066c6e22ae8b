/** What refunds cost, over every run of the pipeline: the amount on the provider's record, approved when it is
    large, and all of it accounted for. */
module RefundAmounts {
  import opened Wrappers
  import opened GuardModel
  import opened GuardSafety
  import opened RunViews
  import opened AgentTools
  import opened PaymentRules
  import opened RecoveryTools
  import opened RecoveryCrash
  import opened RuleStore
  import opened PipelineModel
  import opened PipelineRuns
  import opened Origins
  import A = AgentLoop
  import AgentRuns
  import C = GuardCrash

  // ---------------------------------------------------------------- quoted amounts

  /** At some moment of the attempt the provider's record of the payment had the action's cost as its amount,
      and the action asks for that amount. */
  ghost predicate Quotes(w: Work, payment: RunId, a: Action) {
    w.provider.Some?
    && exists i ::
         var found := w.provider.value.payment(i, payment);
         found.Found? && a.cost == found.value.amount && a.params == w.provider.value.amountText(found.value.amount)
  }

  predicate Attempts(h: Happening) { h.Processing? || h.Died? }

  ghost predicate QuotedIn(hs: seq<Happening>, payment: RunId, a: Action) {
    exists h :: h in hs && Attempts(h) && Quotes(h.work, payment, a)
  }

  /** Refunds of an amount the provider quoted in some attempt of the run, and free actions. */
  ghost predicate IsQuoted(hs: seq<Happening>, payment: RunId, a: Action) {
    IsToolAction(a, payment) && (a.name == "refund" ==> QuotedIn(hs, payment, a))
  }

  ghost function QuotedBy(hs: seq<Happening>): iset<(RunId, Action)> {
    iset x: (RunId, Action) | IsQuoted(hs, x.0, x.1)
  }

  // ---------------------------------------------------------------- what one attempt asks for

  lemma BuiltIsQuoted(c: RecoveryCase, w: Work, name: string, i: nat, args: Args, a: Action)
    requires w.provider.Some? && name in Tools(c, w.provider.value) && Tools(c, w.provider.value)[name].Effect?
    requires Tools(c, w.provider.value)[name].build(i, args) == Some(a)
    ensures IsToolAction(a, c.paymentId) && (a.name == "refund" ==> Quotes(w, c.paymentId, a))
  {
    var p := w.provider.value;
    ToolsBuildToolActions(c, p, name, i, args, a);
    if name == "refund_payment" {
      RefundIsOfTheRecord(c, p, i, args);
    } else if name == "escalate_to_human" {
      EscalationAsksNothing(c, p, i, args);
    } else {
      assert name == "create_payment_link";
      assert a.name == "send_payment_link";
    }
  }

  /** Every call of the attempt asks for an action quoted there. */
  ghost predicate AsksQuoted(calls: seq<Call>, w: Work) {
    forall k :: 0 <= k < |calls| ==>
      && calls[k].Execute? && IsToolAction(calls[k].action, calls[k].run)
      && (calls[k].action.name == "refund" ==> Quotes(w, calls[k].run, calls[k].action))
  }

  lemma RuleAsksQuoted(settings: Settings, sys: System, c: RecoveryCase, w: Work, rule: LoadedRule)
    requires w.provider.Some?
    ensures AsksQuoted(RunRule(settings, sys, c, w.provider.value, w, rule).calls, w)
  {
    var p := w.provider.value;
    var a := RunRule(settings, sys, c, p, w, rule);
    if a.calls != [] {
      var name := RuleTool(rule.rule.action.name).value;
      BuiltIsQuoted(c, w, name, 0, RuleArgs(c, Tools(c, p)[name].params), a.calls[0].action);
    }
  }

  lemma OwnCallIsQuoted(settings: Settings, c: RecoveryCase, w: Work, a: Action)
    requires w.provider.Some? && AgentRuns.IsBuilt(AgentFor(settings, c, w.provider.value, w), a)
    ensures IsToolAction(a, c.paymentId) && (a.name == "refund" ==> Quotes(w, c.paymentId, a))
  {
    var tools := Tools(c, w.provider.value);
    var name, i, args :| name in tools && tools[name].Effect? && tools[name].build(i, args) == Some(a);
    BuiltIsQuoted(c, w, name, i, args, a);
  }

  lemma AgentAsksQuoted(settings: Settings, sys: System, next: nat, c: RecoveryCase, w: Work)
    requires w.provider.Some? && MintsNew(w, sys.store)
    ensures AsksQuoted(RunAgent(settings, sys, next, c, w.provider.value, w).calls, w)
  {
    var g := AgentFor(settings, c, w.provider.value, w);
    var calls := A.AgentRun(g, sys).0.calls;
    AgentRuns.AgentMakesOwnCalls(g, sys);
    forall k | 0 <= k < |calls| && calls[k].Execute?
      ensures IsToolAction(calls[k].action, calls[k].run)
      ensures calls[k].action.name == "refund" ==> Quotes(w, calls[k].run, calls[k].action)
    {
      OwnCallIsQuoted(settings, c, w, calls[k].action);
    }
  }

  lemma AttemptAsksQuoted(settings: Settings, l: Live, id: nat, w: Work)
    requires MintsNew(w, l.sys.store)
    ensures AsksQuoted(AttemptOn(settings, l, id, w).calls, w)
  {
    if ToAct(l, id) && w.provider.Some? {
      var e, p := l.events[id], w.provider.value;
      var found := p.payment(0, e.paymentId);
      if found.Found? && HistoryFor(p, found.value.customerId).Some? {
        var c := CaseOf(e, found.value);
        var context := BuildContext(e, found.value.paymentMethod, HistoryFor(p, found.value.customerId).value, w.hours);
        var chosen := Chosen(w.rules, PAYMENT_SCHEMA, context);
        if chosen.Some? {
          RuleAsksQuoted(settings, l.sys, c, w, chosen.value);
        } else {
          AgentAsksQuoted(settings, l.sys, |l.trajectories|, c, w);
        }
      }
    }
  }

  // ---------------------------------------------------------------- every run

  lemma {:induction false} WholesAsk(allowed: iset<(RunId, Action)>, calls: seq<Call>)
    requires forall k :: 0 <= k < |calls| && calls[k].Execute? ==> (calls[k].run, calls[k].action) in allowed
    ensures AskedOf(allowed, C.Wholes(calls))
  {
    if calls != [] {
      var init := calls[..|calls| - 1];
      assert forall k :: 0 <= k < |init| ==> init[k] == calls[k];
      WholesAsk(allowed, init);
    }
  }

  lemma CutShortAsks(allowed: iset<(RunId, Action)>, calls: seq<Call>, after: nat, landed: nat)
    requires forall k :: 0 <= k < |calls| && calls[k].Execute? ==> (calls[k].run, calls[k].action) in allowed
    ensures AskedOf(allowed, CutShort(calls, after, landed))
  {
    var done := Take(calls, after);
    assert forall k :: 0 <= k < |done| ==> done[k] == calls[k];
    WholesAsk(allowed, done);
  }

  lemma MoreQuoted(hs: seq<Happening>, h: Happening)
    ensures QuotedBy(hs) <= QuotedBy(hs + [h])
  {
    forall x: (RunId, Action) | IsQuoted(hs, x.0, x.1) ensures IsQuoted(hs + [h], x.0, x.1) {
      if x.1.name == "refund" {
        var g :| g in hs && Attempts(g) && Quotes(g.work, x.0, x.1);
        assert g in hs + [h];
      }
    }
  }

  lemma HappeningAsks(settings: Settings, hs: seq<Happening>, l: Live, h: Happening)
    requires FreshNow(l, h) && h in hs
    ensures AskedOf(QuotedBy(hs), EventsOf(settings, l, h))
  {
    if Attempts(h) {
      var calls := AttemptOn(settings, l, h.id, h.work).calls;
      AttemptAsksQuoted(settings, l, h.id, h.work);
      forall k | 0 <= k < |calls| && calls[k].Execute? ensures (calls[k].run, calls[k].action) in QuotedBy(hs) {
        assert calls[k].action.name == "refund" ==> QuotedIn(hs, calls[k].run, calls[k].action);
      }
      if h.Processing? { WholesAsk(QuotedBy(hs), calls); }
      else { CutShortAsks(QuotedBy(hs), calls, h.after, h.landed); }
    }
  }

  /** Over every run, with deaths anywhere: an effect is a free link or escalation, or a refund that cost and
      asked for the amount the provider's record of that payment had in some attempt; and so is what waits. */
  lemma {:induction false} EffectsAreQuoted(settings: Settings, hs: seq<Happening>)
    requires FreshRun(settings, hs)
    ensures AllOf(QuotedBy(hs), RunLive(settings, hs).sys)
  {
    if hs != [] {
      var init, h := hs[..|hs| - 1], hs[|hs| - 1];
      assert init + [h] == hs;
      EffectsAreQuoted(settings, init);
      MoreQuoted(init, h);
      var l := RunLive(settings, init);
      HappeningAccounts(settings, l, h);
      HappeningAsks(settings, hs, l, h);
      EventsKeepOf(QuotedBy(hs), l.sys, settings.policy, EventsOf(settings, l, h));
    }
  }

  /** What refunds among some effects cost. */
  function Refunded(effects: seq<Action>): real {
    if effects == [] then 0.0
    else
      var last := effects[|effects| - 1];
      Refunded(effects[..|effects| - 1]) + if last.name == "refund" then last.cost else 0.0
  }

  lemma {:induction false} OnlyRefundsCost(effects: seq<Action>, payment: RunId)
    requires forall i :: 0 <= i < |effects| ==> IsToolAction(effects[i], payment)
    ensures TotalCost(effects) == Refunded(effects)
  {
    if effects != [] { OnlyRefundsCost(effects[..|effects| - 1], payment); }
  }

  /** Over every run, with deaths anywhere: each refund cost and asked for an amount the provider quoted, and if
      that was above the threshold it was performed with the payment's record approved and not rejected since. */
  lemma RefundsAreQuotedAndApproved(settings: Settings, hs: seq<Happening>, k: nat)
    requires FreshRun(settings, hs)
    requires k < |RunLive(settings, hs).sys.effects| && RunLive(settings, hs).sys.effects[k].action.name == "refund"
    ensures var e := RunLive(settings, hs).sys.effects[k];
            && QuotedIn(hs, e.run, e.action)
            && (e.action.cost > settings.policy.threshold ==> HadLeave(settings, hs, e))
  {
    var e := RunLive(settings, hs).sys.effects[k];
    EffectsAreQuoted(settings, hs);
    assert (e.run, e.action) in QuotedBy(hs);
    RunAccounted(settings, hs);
    if e.action.cost > settings.policy.threshold { LargeEffectsHadLeave(settings.policy, AllEvents(settings, hs), k); }
  }

  ghost predicate HadLeave(settings: Settings, hs: seq<Happening>, e: Performed) {
    var events := AllEvents(settings, hs);
    exists n :: 0 <= n < |events| && PerformedAt(settings.policy, events, n, e.run, e.action)
                && WithLeave(settings.policy, events, n, e.run, e.action.key)
  }

  lemma CostIsRefunded(p: Policy, events: seq<C.Event>, payment: RunId)
    requires C.FreshEvents(START, p, events) && ToolEvents(events) && C.Crashes(events, payment) == 0
    ensures var s := C.RunEvents(START, p, events); Spend(s.store, payment) == Refunded(EffectsOf(s.effects, payment))
  {
    var s := C.RunEvents(START, p, events);
    SpendIsCost(p, events, payment);
    EventsKeepTools(p, events);
    EffectsOfTools(s.effects, payment);
    OnlyRefundsCost(EffectsOf(s.effects, payment), payment);
  }

  /** On a payment whose calls all finished the recorded spend is what was refunded. */
  lemma SpendIsRefunded(settings: Settings, hs: seq<Happening>, payment: RunId)
    requires FreshRun(settings, hs) && DeathsInside(settings, hs, payment) == 0
    ensures var s := RunLive(settings, hs).sys; Spend(s.store, payment) == Refunded(EffectsOf(s.effects, payment))
  {
    RunAccounted(settings, hs);
    CostIsRefunded(settings.policy, AllEvents(settings, hs), payment);
  }
}
