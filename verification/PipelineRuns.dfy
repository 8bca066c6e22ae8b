/** What holds over every run of the live pipeline: ledger rows, redeliveries, drains, and effects. */
module PipelineRuns {
  import opened Wrappers
  import opened Rules
  import opened GuardModel
  import opened GuardRuns
  import opened PaymentRules
  import opened RuleStore
  import opened AgentTools
  import opened RecoveryTools
  import opened RecoveryCrash
  import opened PipelineModel
  import A = AgentLoop
  import AgentRuns
  import C = GuardCrash
  import RunViews
  import Distillation
  import RefundBound
  import RuleLifecycle

  // ---------------------------------------------------------------- everything that may happen

  /** A webhook is stored; an event is processed; the process dies in an attempt, after `after` of its executor
      calls and `landed` of the next one's writes, and keeps the trajectory if it had come to saving it; an
      operator's decision is carried out, to the end or to a death. */
  datatype Happening =
    | Received(event: InternalEvent)
    | Processing(id: nat, work: Work)
    | Died(id: nat, work: Work, after: nat, landed: nat, saved: bool)
    | Deciding(decision: C.Event)

  /** The executor calls of an attempt that died. */
  function CutShort(calls: seq<Call>, after: nat, landed: nat): seq<C.Event> {
    C.Wholes(Take(calls, after)) + if landed > 0 && after < |calls| then [C.Cut(calls[after], landed)] else []
  }

  function EventsOf(settings: Settings, l: Live, h: Happening): seq<C.Event> {
    match h
    case Received(_) => []
    case Processing(id, w) => C.Wholes(AttemptOn(settings, l, id, w).calls)
    case Died(id, w, n, landed, _) => CutShort(AttemptOn(settings, l, id, w).calls, n, landed)
    case Deciding(e) => if e.call.Execute? then [] else [e]
  }

  /** An attempt that made all its calls may have saved its trajectory before it died. */
  function KeptBy(settings: Settings, l: Live, h: Happening): seq<Trajectory>
    requires h.Died?
  {
    var a := AttemptOn(settings, l, h.id, h.work);
    if h.saved && h.after >= |a.calls| then Kept(a) else []
  }

  function Next(settings: Settings, l: Live, h: Happening): Live {
    match h
    case Received(e) => l.(events := l.events + [e])
    case Processing(id, w) => Process(settings, l, id, w).0
    case Died(_, _, _, _, _) =>
      l.(sys := C.RunEvents(l.sys, settings.policy, EventsOf(settings, l, h)),
         trajectories := l.trajectories + KeptBy(settings, l, h))
    case Deciding(_) => l.(sys := C.RunEvents(l.sys, settings.policy, EventsOf(settings, l, h)))
  }

  const EMPTY := Live([], [], [], START)

  function RunLive(settings: Settings, hs: seq<Happening>): Live {
    if hs == [] then EMPTY else Next(settings, RunLive(settings, hs[..|hs| - 1]), hs[|hs| - 1])
  }

  /** All executor calls of a run, in order. */
  function AllEvents(settings: Settings, hs: seq<Happening>): seq<C.Event> {
    if hs == [] then []
    else
      var init := hs[..|hs| - 1];
      AllEvents(settings, init) + EventsOf(settings, RunLive(settings, init), hs[|hs| - 1])
  }

  /** The deaths inside executor calls on a payment. */
  function DeathsInside(settings: Settings, hs: seq<Happening>, payment: RunId): nat {
    C.Crashes(AllEvents(settings, hs), payment)
  }

  ghost predicate FreshNow(l: Live, h: Happening) {
    match h
    case Received(_) => true
    case Processing(_, w) => MintsNew(w, l.sys.store)
    case Died(_, w, _, _, _) => MintsNew(w, l.sys.store)
    case Deciding(e) => Fresh(l.sys.store, e.call)
  }

  /** Approval ids are never minted twice. */
  ghost predicate FreshRun(settings: Settings, hs: seq<Happening>) {
    hs == []
    || (var init := hs[..|hs| - 1]; FreshRun(settings, init) && FreshNow(RunLive(settings, init), hs[|hs| - 1]))
  }

  // ---------------------------------------------------------------- the world is what the executor calls made it

  /** The calls explain the step from one world to the next, and ask only for tool actions. */
  ghost predicate Explains(p: Policy, from: System, to: System, calls: seq<Call>) {
    to == RunAll(from, p, calls) && FreshIds(from, p, calls) && ToolCalls(calls)
  }

  lemma OneCallExplains(settings: Settings, sys: System, call: Call)
    requires Fresh(sys.store, call) && (call.Execute? ==> IsToolAction(call.action, call.run))
    ensures Explains(settings.policy, sys, CallOn(sys, settings.policy, call), [call])
  {
    RunSnoc(sys, settings.policy, [], call);
    assert [] + [call] == [call];
  }

  lemma RuleExplains(settings: Settings, sys: System, c: RecoveryCase, p: Provider, w: Work, rule: LoadedRule)
    requires MintsNew(w, sys.store)
    ensures var a := RunRule(settings, sys, c, p, w, rule); Explains(settings.policy, sys, a.sys, a.calls)
  {
    var a := RunRule(settings, sys, c, p, w, rule);
    if a.calls != [] {
      var name := RuleTool(rule.rule.action.name).value;
      var tool := Tools(c, p)[name];
      var action := tool.build(0, RuleArgs(c, tool.params));
      ToolsBuildToolActions(c, p, name, 0, RuleArgs(c, tool.params), action.value);
      assert w.minted(0) !in sys.store.approvals;
      OneCallExplains(settings, sys, a.calls[0]);
    }
  }

  lemma AgentExplains(settings: Settings, sys: System, next: nat, c: RecoveryCase, p: Provider, w: Work)
    requires MintsNew(w, sys.store)
    ensures var a := RunAgent(settings, sys, next, c, p, w); Explains(settings.policy, sys, a.sys, a.calls)
  {
    var g := AgentFor(settings, c, p, w);
    AgentRuns.TrajectoryMatchesAudit(g, sys);
    var (t, _) := A.AgentRun(g, sys);
    forall k | 0 <= k < |t.calls|
      ensures IsToolAction(t.calls[k].action, t.calls[k].run)
    {
      var name, i, args :| name in g.tools && g.tools[name].Effect?
          && g.tools[name].build(i, args) == Some(t.calls[k].action);
      ToolsBuildToolActions(c, p, name, i, args, t.calls[k].action);
    }
  }

  lemma AttemptExplains(settings: Settings, l: Live, id: nat, w: Work)
    requires MintsNew(w, l.sys.store)
    ensures var a := AttemptOn(settings, l, id, w); Explains(settings.policy, l.sys, a.sys, a.calls)
  {
    if ToAct(l, id) && w.provider.Some? {
      var e, p := l.events[id], w.provider.value;
      var found := p.payment(0, e.paymentId);
      if found.Found? && HistoryFor(p, found.value.customerId).Some? {
        var c := CaseOf(e, found.value);
        var context := BuildContext(e, found.value.paymentMethod, HistoryFor(p, found.value.customerId).value, w.hours);
        var chosen := Chosen(w.rules, PAYMENT_SCHEMA, context);
        if chosen.Some? {
          RuleExplains(settings, l.sys, c, p, w, chosen.value);
        } else {
          AgentExplains(settings, l.sys, |l.trajectories|, c, p, w);
        }
      }
    }
  }

  /** The same with calls that may have been cut short. */
  ghost predicate Accounts(p: Policy, from: System, to: System, events: seq<C.Event>) {
    to == C.RunEvents(from, p, events) && C.FreshEvents(from, p, events) && ToolEvents(events)
  }

  lemma {:induction false} WholesAreTools(calls: seq<Call>)
    requires ToolCalls(calls)
    ensures ToolEvents(C.Wholes(calls))
  {
    if calls != [] {
      var init := calls[..|calls| - 1];
      assert forall k :: 0 <= k < |init| ==> init[k] == calls[k];
      WholesAreTools(init);
    }
  }

  lemma WholesAccount(p: Policy, from: System, to: System, calls: seq<Call>)
    requires Explains(p, from, to, calls)
    ensures Accounts(p, from, to, C.Wholes(calls))
  {
    C.WholesRun(from, p, calls);
    WholesAreTools(calls);
  }

  lemma ExplainsPrefix(p: Policy, from: System, to: System, calls: seq<Call>, n: nat)
    requires Explains(p, from, to, calls) && n <= |calls|
    ensures Explains(p, from, RunAll(from, p, calls[..n]), calls[..n])
    ensures n < |calls| ==> Fresh(RunAll(from, p, calls[..n]).store, calls[n])
  {
    FreshPrefix(from, p, calls, n);
    if n < |calls| { NextCallIsFresh(from, p, calls, n); }
  }

  lemma CutShortAccounts(p: Policy, from: System, to: System, calls: seq<Call>, after: nat, landed: nat)
    requires Explains(p, from, to, calls)
    ensures Accounts(p, from, C.RunEvents(from, p, CutShort(calls, after, landed)), CutShort(calls, after, landed))
  {
    var n := if after <= |calls| then after else |calls|;
    var done := calls[..n];
    assert Take(calls, after) == done;
    ExplainsPrefix(p, from, to, calls, n);
    WholesAccount(p, from, RunAll(from, p, done), done);
    if landed > 0 && after < |calls| {
      C.EventSnoc(from, p, C.Wholes(done), C.Cut(calls[after], landed));
    } else {
      assert C.Wholes(done) + [] == C.Wholes(done);
    }
  }

  lemma DecisionAccounts(p: Policy, from: System, e: C.Event)
    requires Fresh(from.store, e.call) && !e.call.Execute?
    ensures Accounts(p, from, C.RunEvents(from, p, [e]), [e])
  {
    C.EventSnoc(from, p, [], e);
    assert [] + [e] == [e];
  }

  lemma HappeningAccounts(settings: Settings, l: Live, h: Happening)
    requires FreshNow(l, h)
    ensures Accounts(settings.policy, l.sys, Next(settings, l, h).sys, EventsOf(settings, l, h))
  {
    match h
    case Received(_) =>
    case Processing(id, w) =>
      AttemptExplains(settings, l, id, w);
      WholesAccount(settings.policy, l.sys, AttemptOn(settings, l, id, w).sys, AttemptOn(settings, l, id, w).calls);
    case Died(id, w, n, landed, _) =>
      AttemptExplains(settings, l, id, w);
      CutShortAccounts(settings.policy, l.sys, AttemptOn(settings, l, id, w).sys, AttemptOn(settings, l, id, w).calls,
          n, landed);
    case Deciding(e) => if !e.call.Execute? { DecisionAccounts(settings.policy, l.sys, e); }
  }

  lemma AccountsConcat(p: Policy, from: System, mid: System, to: System, a: seq<C.Event>, b: seq<C.Event>)
    requires Accounts(p, from, mid, a) && Accounts(p, mid, to, b)
    ensures Accounts(p, from, to, a + b)
  {
    C.EventsConcat(from, p, a, b, a + b);
    C.FreshConcat(from, p, a, b, a + b);
  }

  lemma {:induction false} RunAccounted(settings: Settings, hs: seq<Happening>)
    requires FreshRun(settings, hs)
    ensures Accounts(settings.policy, START, RunLive(settings, hs).sys, AllEvents(settings, hs))
  {
    if hs != [] {
      var init, h := hs[..|hs| - 1], hs[|hs| - 1];
      RunAccounted(settings, init);
      var l := RunLive(settings, init);
      HappeningAccounts(settings, l, h);
      AccountsConcat(settings.policy, START, l.sys, Next(settings, l, h).sys, AllEvents(settings, init),
          EventsOf(settings, l, h));
    }
  }

  /** Over every run of the pipeline, with whatever webhooks, model answers, rule changes, approvals,
      re-processing and deaths, between executor calls or inside them: on each payment the effects of one kind
      exceed one, and all effects exceed three, by at most the deaths inside calls on that payment. */
  lemma EffectsPerDeath(settings: Settings, hs: seq<Happening>, payment: RunId, name: string)
    requires FreshRun(settings, hs) && name in HANDLERS
    ensures var seen := RunViews.EffectsOf(RunLive(settings, hs).sys.effects, payment);
            && (forall i :: 0 <= i < |seen| ==> IsToolAction(seen[i], payment))
            && OfKind(seen, name) <= 1 + DeathsInside(settings, hs, payment)
            && |seen| <= 3 + DeathsInside(settings, hs, payment)
  {
    RunAccounted(settings, hs);
    RecoveryCrash.EffectsPerDeath(settings.policy, AllEvents(settings, hs), payment, name);
  }

  /** So a payment on which no call was cut short sees at most one link, one refund and one escalation,
      wherever else the process died. */
  lemma EffectsHappenOnce(settings: Settings, hs: seq<Happening>, payment: RunId)
    requires FreshRun(settings, hs) && DeathsInside(settings, hs, payment) == 0
    ensures var seen := RunViews.EffectsOf(RunLive(settings, hs).sys.effects, payment);
            && |seen| <= 3
            && (forall i :: 0 <= i < |seen| ==> IsToolAction(seen[i], payment))
            && (forall i, j :: 0 <= i < j < |seen| ==> seen[i].name != seen[j].name)
  {
    var seen := RunViews.EffectsOf(RunLive(settings, hs).sys.effects, payment);
    EffectsPerDeath(settings, hs, payment, "refund");
    forall i, j | 0 <= i < j < |seen| ensures seen[i].name != seen[j].name {
      EffectsPerDeath(settings, hs, payment, seen[i].name);
      if seen[i].name == seen[j].name { TwoOfAKind(seen, i, j); }
    }
  }

  /** A budget of three actions, and one more per death inside a call on the payment, never rejects an action
      there, wherever else the process died. The default of five outlasts two such deaths. */
  lemma BudgetNeverRejects(settings: Settings, hs: seq<Happening>, payment: RunId)
    requires FreshRun(settings, hs) && settings.policy.budget >= 3 + DeathsInside(settings, hs, payment)
    ensures RecoveryCrash.NeverOverBudget(Log(RunLive(settings, hs).sys.store.audit, payment))
  {
    RunAccounted(settings, hs);
    RecoveryCrash.BudgetOutlastsDeaths(settings.policy, AllEvents(settings, hs), payment);
  }

  // ---------------------------------------------------------------- the ledger

  /** At most one row per event. */
  ghost predicate OneRowPerEvent(ledger: seq<LedgerRow>) {
    forall i, j :: 0 <= i < j < |ledger| ==> ledger[i].event != ledger[j].event
  }

  predicate SameDelivery(a: LedgerRow, b: LedgerRow) { a.provider == b.provider && a.eventId == b.eventId }

  /** At most one row per identified delivery acted on it. */
  ghost predicate OneActPerDelivery(ledger: seq<LedgerRow>) {
    forall i, j :: 0 <= i < j < |ledger| && Acted(ledger[i]) && Acted(ledger[j]) && ledger[i].eventId != "" ==>
      !SameDelivery(ledger[i], ledger[j])
  }

  /** Every duplicate has an earlier row that acted on the same delivery. */
  ghost predicate DuplicatesHaveOriginals(ledger: seq<LedgerRow>) {
    forall j :: 0 <= j < |ledger| && ledger[j].fields.path == DuplicateDelivery ==>
      exists i :: 0 <= i < j && Acted(ledger[i]) && SameDelivery(ledger[i], ledger[j])
  }

  ghost predicate LedgerSound(ledger: seq<LedgerRow>) {
    OneRowPerEvent(ledger) && OneActPerDelivery(ledger) && DuplicatesHaveOriginals(ledger)
  }

  lemma {:induction false} ForEventIsExact(ledger: seq<LedgerRow>, event: nat)
    ensures ForEvent(ledger, event).None? <==> forall i :: 0 <= i < |ledger| ==> ledger[i].event != event
    ensures ForEvent(ledger, event).Some? ==>
              ForEvent(ledger, event).value < |ledger| && ledger[ForEvent(ledger, event).value].event == event
  {
    if ledger != [] { ForEventIsExact(ledger[..|ledger| - 1], event); }
  }

  lemma {:induction false} ProcessedDeliveryIsExact(ledger: seq<LedgerRow>, provider: string, eventId: string)
    ensures var found := ProcessedDelivery(ledger, provider, eventId);
            && (found.None? <==> eventId == "" || forall i :: 0 <= i < |ledger| ==>
                  !(Acted(ledger[i]) && ledger[i].provider == provider && ledger[i].eventId == eventId))
            && (found.Some? ==>
                  && found.value < |ledger| && Acted(ledger[found.value])
                  && ledger[found.value].provider == provider && ledger[found.value].eventId == eventId)
  {
    if ledger != [] && eventId != "" { ProcessedDeliveryIsExact(ledger[..|ledger| - 1], provider, eventId); }
  }

  /** A row for an event without one, which is a duplicate exactly if the delivery was acted on, keeps the
      ledger sound. */
  lemma RecordKeepsSound(ledger: seq<LedgerRow>, row: LedgerRow)
    requires LedgerSound(ledger) && ForEvent(ledger, row.event).None?
    requires row.fields.path == DuplicateDelivery <==> ProcessedDelivery(ledger, row.provider, row.eventId).Some?
    ensures LedgerSound(ledger + [row])
  {
    var more := ledger + [row];
    ForEventIsExact(ledger, row.event);
    ProcessedDeliveryIsExact(ledger, row.provider, row.eventId);
    forall j | 0 <= j < |more| && more[j].fields.path == DuplicateDelivery
      ensures exists i :: 0 <= i < j && Acted(more[i]) && SameDelivery(more[i], more[j])
    {
      if j < |ledger| {
        var i :| 0 <= i < j && Acted(ledger[i]) && SameDelivery(ledger[i], ledger[j]);
        assert Acted(more[i]) && SameDelivery(more[i], more[j]);
      } else {
        var i := ProcessedDelivery(ledger, row.provider, row.eventId).value;
        assert Acted(more[i]) && SameDelivery(more[i], more[j]);
      }
    }
  }

  /** An attempt never records itself as a duplicate. */
  lemma AttemptIsNoDuplicate(settings: Settings, sys: System, next: nat, e: InternalEvent, w: Work)
    ensures var a := RouteAndAct(settings, sys, next, e, w);
            a.fields.Some? ==> a.fields.value.path == Path.Deterministic || a.fields.value.path == Llm
  {
  }

  lemma ProcessKeepsSound(settings: Settings, l: Live, id: nat, w: Work)
    requires LedgerSound(l.ledger)
    ensures LedgerSound(Process(settings, l, id, w).0.ledger)
  {
    if ForEvent(l.ledger, id).None? && id < |l.events| && l.events[id].isFailure {
      var e := l.events[id];
      AttemptIsNoDuplicate(settings, l.sys, |l.trajectories|, e, w);
      var more := Process(settings, l, id, w).0.ledger;
      RecordKeepsSound(l.ledger, more[|l.ledger|]);
      assert more == l.ledger + [more[|l.ledger|]];
    }
  }

  /** Over every run: one row per event at most, one acting row per identified delivery at most, and an
      original before every duplicate. */
  lemma {:induction false} LedgerStaysSound(settings: Settings, hs: seq<Happening>)
    ensures LedgerSound(RunLive(settings, hs).ledger)
  {
    if hs != [] {
      LedgerStaysSound(settings, hs[..|hs| - 1]);
      var h := hs[|hs| - 1];
      if h.Processing? { ProcessKeepsSound(settings, RunLive(settings, hs[..|hs| - 1]), h.id, h.work); }
    }
  }

  /** Processing an event again changes nothing and names the same row. */
  lemma ProcessingIsIdempotent(settings: Settings, l: Live, id: nat, w: Work, again: Work)
    ensures var (l', row) := Process(settings, l, id, w);
            row.Some? ==> Process(settings, l', id, again) == (l', row)
  {
    var (l', row) := Process(settings, l, id, w);
    if row.Some? && ForEvent(l.ledger, id).None? {
      assert l'.ledger[|l'.ledger| - 1].event == id;
    }
  }

  /** A delivery that was acted on is never acted on again: no executor call, no change to the world. */
  lemma RedeliveryDoesNothing(settings: Settings, l: Live, id: nat, w: Work, i: nat)
    requires id < |l.events| && l.events[id].eventId != ""
    requires i < |l.ledger| && Acted(l.ledger[i]) && l.ledger[i].provider == l.events[id].provider
    requires l.ledger[i].eventId == l.events[id].eventId
    ensures AttemptOn(settings, l, id, w).calls == []
    ensures Process(settings, l, id, w).0.sys == l.sys
    ensures ForEvent(l.ledger, id).None? && l.events[id].isFailure ==>
              Process(settings, l, id, w).0.ledger == l.ledger + [RowFor(id, l.events[id], REDELIVERED)]
  {
    ProcessedDeliveryIsExact(l.ledger, l.events[id].provider, l.events[id].eventId);
  }

  // ---------------------------------------------------------------- the drain

  predicate IsPending(l: Live, id: nat) { id < |l.events| && l.events[id].isFailure && ForEvent(l.ledger, id).None? }

  lemma {:induction false} PendingIsExact(l: Live, n: nat, id: nat)
    requires n <= |l.events|
    ensures id in PendingUpTo(l, n) <==> id < n && IsPending(l, id)
  {
    if n > 0 { PendingIsExact(l, n - 1, id); }
  }

  lemma {:induction false} OldestFirst(l: Live, n: nat)
    requires n <= |l.events|
    ensures forall i, j :: 0 <= i < j < |PendingUpTo(l, n)| ==> PendingUpTo(l, n)[i] < PendingUpTo(l, n)[j]
    ensures forall i :: 0 <= i < |PendingUpTo(l, n)| ==> PendingUpTo(l, n)[i] < n
  {
    if n > 0 { OldestFirst(l, n - 1); }
  }

  /** A drain takes pending events oldest first, as many as it may: before each event it takes it has taken every
      older one, and it leaves one only if it took its limit. */
  lemma DrainTakesOldest(l: Live, limit: nat, id: nat, older: nat)
    ensures var taken := DrainIds(l, limit);
            && |taken| <= limit
            && (forall i, j :: 0 <= i < j < |taken| ==> taken[i] < taken[j])
            && (id in taken && older < id && IsPending(l, older) ==> older in taken)
            && (IsPending(l, id) && id !in taken ==> |taken| == limit)
  {
    var all, taken := PendingEvents(l), DrainIds(l, limit);
    OldestFirst(l, |l.events|);
    PendingIsExact(l, |l.events|, older);
    PendingIsExact(l, |l.events|, id);
    assert taken <= all;
    if id in taken && older < id && IsPending(l, older) {
      var i, j :| 0 <= i < |taken| && 0 <= j < |all| && taken[i] == id && all[j] == older;
      assert all[i] == id;
    }
  }

  /** Processing settles its own event and leaves every other as it was. */
  lemma ProcessSettles(settings: Settings, l: Live, id: nat, w: Work, other: nat)
    ensures var l' := Process(settings, l, id, w).0;
            && !IsPending(l', id)
            && (other != id ==> (IsPending(l', other) <==> IsPending(l, other)))
            && |l'.events| == |l.events|
  {
    var l' := Process(settings, l, id, w).0;
    if |l'.ledger| > |l.ledger| {
      assert l'.ledger[..|l.ledger|] == l.ledger;
      assert l'.ledger[|l'.ledger| - 1].event == id;
    }
  }

  lemma {:induction false} ProcessAllSettles(settings: Settings, l: Live, ids: seq<nat>, works: nat -> Work, other: nat)
    ensures var l' := ProcessAll(settings, l, ids, works);
            && (IsPending(l', other) <==> IsPending(l, other) && other !in ids)
            && |l'.events| == |l.events|
  {
    if ids != [] {
      var n := |ids| - 1;
      ProcessAllSettles(settings, l, ids[..n], works, other);
      ProcessSettles(settings, ProcessAll(settings, l, ids[..n], works), ids[n], works(n), other);
      assert ids == ids[..n] + [ids[n]];
    }
  }

  lemma {:induction false} NonePending(l: Live, n: nat)
    requires n <= |l.events| && forall id :: 0 <= id < n ==> !IsPending(l, id)
    ensures PendingUpTo(l, n) == []
  {
    if n > 0 {
      assert !IsPending(l, n - 1);
      NonePending(l, n - 1);
    }
  }

  /** A drain settles exactly the events it takes. With at most `limit` events pending it leaves none, counts
      them all, and draining again finds nothing and changes nothing. */
  lemma DrainSettlesAll(settings: Settings, l: Live, limit: nat, works: nat -> Work, later: nat, again: nat -> Work)
    requires |PendingEvents(l)| <= limit
    ensures var (l', n) := Drain(settings, l, limit, works);
            && n == |PendingEvents(l)|
            && PendingEvents(l') == []
            && Drain(settings, l', later, again) == (l', 0)
  {
    var l' := Drain(settings, l, limit, works).0;
    forall id | 0 <= id < |l'.events|
      ensures !IsPending(l', id)
    {
      ProcessAllSettles(settings, l, PendingEvents(l), works, id);
      PendingIsExact(l, |l.events|, id);
    }
    NonePending(l', |l'.events|);
  }

  /** Whatever the limit: an event is still pending after a drain exactly if the drain did not take it. */
  lemma DrainSettlesItsShare(settings: Settings, l: Live, limit: nat, works: nat -> Work, id: nat)
    ensures var l' := Drain(settings, l, limit, works).0;
            IsPending(l', id) <==> IsPending(l, id) && id !in Take(PendingEvents(l), limit)
  {
    ProcessAllSettles(settings, l, Take(PendingEvents(l), limit), works, id);
  }

  // ---------------------------------------------------------------- the ledger tells the truth

  /** The effects a call adds to those the world has seen: one if it is reported executed, else none. */
  lemma ExecutedMeansEffect(p: Policy, sys: System, call: Call)
    requires call.Execute? && call.minted !in sys.store.approvals
    ensures var reply := ReplyTo(sys.store, p, call);
            CallOn(sys, p, call).effects ==
            sys.effects + if reply.Result? && reply.status == Executed then [Performed(call.run, call.action)] else []
  {
    var q := Ask(sys.store, call.run, call.action);
    var cs := ChainCommits(q, p, call.run, call.registered, call.action, call.outcome, call.minted);
    if |cs| == 4 {
      ApplyAll4(sys, cs[0], cs[1], cs[2], cs[3]);
      assert cs == [cs[0], cs[1], cs[2], cs[3]];
    } else {
      NoEffectWritten(sys, cs);
      assert sys.effects + [] == sys.effects;
    }
  }

  lemma {:induction false} NoEffectWritten(sys: System, cs: seq<Commit>)
    requires forall i :: 0 <= i < |cs| ==> !cs[i].Effect?
    ensures ApplyAll(sys, cs).effects == sys.effects
  {
    if cs != [] { NoEffectWritten(sys, cs[..|cs| - 1]); }
  }

  /** A row for a rule claims success exactly when its attempt had its one effect: resolved or escalated means
      one effect more in the world, anything else, and an attempt that raised, means none. */
  lemma RuleRowTellsTheTruth(settings: Settings, sys: System, c: RecoveryCase, p: Provider, w: Work, rule: LoadedRule)
    requires MintsNew(w, sys.store)
    ensures var a := RunRule(settings, sys, c, p, w, rule);
            var claimed := a.fields.Some?
                && (a.fields.value.outcome == "resolved" || a.fields.value.outcome == "escalated");
            && (claimed <==> a.fields.Some? && a.fields.value.status == Some(Executed))
            && (claimed ==> exists action :: IsToolAction(action, c.paymentId) && action.name == rule.rule.action.name
                              && a.sys.effects == sys.effects + [Performed(c.paymentId, action)])
            && (!claimed ==> a.sys.effects == sys.effects)
  {
    var a := RunRule(settings, sys, c, p, w, rule);
    if a.calls != [] {
      var call := a.calls[0];
      var name := RuleTool(rule.rule.action.name).value;
      var tool := Tools(c, p)[name];
      assert w.minted(0) !in sys.store.approvals;
      ToolsBuildToolActions(c, p, name, 0, RuleArgs(c, tool.params), call.action);
      ExecutedMeansEffect(settings.policy, sys, call);
      if a.fields.Some? && a.fields.value.status == Some(Executed) {
        assert IsToolAction(call.action, c.paymentId) && call.action.name == rule.rule.action.name;
      }
    }
  }

  // ---------------------------------------------------------------- refunds by distilled rules

  /** An action within the threshold never waits for approval. */
  lemma WithinThresholdIsUngated(st: Store, p: Policy, call: Call)
    requires call.Execute? && call.action.cost <= p.threshold
    ensures forall i :: 0 <= i < |Commits(st, p, call)| ==> !Commits(st, p, call)[i].Enqueue?
    ensures ReplyTo(st, p, call).Result? ==> ReplyTo(st, p, call).status != PendingApproval
  {
  }

  lemma RefundWithinThreshold(settings: Settings, sys: System, c: RecoveryCase, p: Provider, w: Work, rule: LoadedRule)
    requires rule.rule.action.name == "refund"
    requires p.payment(0, c.paymentId).Found? && p.payment(0, c.paymentId).value.amount <= settings.policy.threshold
    ensures var a := RunRule(settings, sys, c, p, w, rule);
            && |a.calls| == 1
            && a.calls[0].Execute? && a.calls[0].action.cost == p.payment(0, c.paymentId).value.amount
            && (a.fields.Some? ==> a.fields.value.status != Some(PendingApproval))
  {
    var a := RunRule(settings, sys, c, p, w, rule);
    assert Tools(c, p)["refund_payment"].build(0, map[]) == RefundAction(c, p, 0);
    WithinThresholdIsUngated(sys.store, settings.policy, a.calls[0]);
  }

  /** A rule the distiller has activated refunds an event only if the event's amount is within the threshold. */
  lemma ActivatedRefundAmount(u: Distillation.Setup, rows: seq<RuleRow>, events: seq<Distillation.Event>, i: nat,
                              rule: LoadedRule, e: InternalEvent, paymentMethod: string, history: Option<History>,
                                  hours: Option<real>)
    requires Distillation.ValidSetup(u)
    requires UniqueVersions(rows) && forall j :: 0 <= j < |rows| ==> !RuleLifecycle.RowDistilled(rows[j])
    requires i < |Distillation.Run(u, Distillation.Start(rows), events).rows|
    requires var row := Distillation.Run(u, Distillation.Start(rows), events).rows[i];
             RuleLifecycle.RowDistilled(row) && row.status == Active && Load(row, PAYMENT_SCHEMA) == Some(rule)
    requires rule.rule.action.name == "refund" && Matches(rule.rule, BuildContext(e, paymentMethod, history, hours))
    ensures e.amount <= u.threshold
  {
    var context := BuildContext(e, paymentMethod, history, hours);
    RefundBound.ActivatedRefundsAreBounded(u, rows, events, i, context);
    assert context["amount_inr"] == Num(e.amount);
  }

  /** Whatever was proposed and whatever statistics accrued: when a rule the distiller has activated matches
      an event and refunds it, and the provider's record carries the event's amount, the refund is one call
      of that amount and does not wait for approval. */
  lemma DistilledRefundIsUngated(settings: Settings, sys: System, e: InternalEvent, p: Provider, payment: Payment,
                                 history: Option<History>, w: Work, u: Distillation.Setup, rows: seq<RuleRow>,
                                     events: seq<Distillation.Event>, i: nat, rule: LoadedRule)
    requires Distillation.ValidSetup(u) && u.threshold == settings.policy.threshold
    requires UniqueVersions(rows) && forall j :: 0 <= j < |rows| ==> !RuleLifecycle.RowDistilled(rows[j])
    requires i < |Distillation.Run(u, Distillation.Start(rows), events).rows|
    requires var row := Distillation.Run(u, Distillation.Start(rows), events).rows[i];
             RuleLifecycle.RowDistilled(row) && row.status == Active && Load(row, PAYMENT_SCHEMA) == Some(rule)
    requires rule.rule.action.name == "refund"
    requires Matches(rule.rule, BuildContext(e, payment.paymentMethod, history, w.hours))
    requires p.payment(0, payment.id).Found? && p.payment(0, payment.id).value.amount == e.amount
    ensures var a := RunRule(settings, sys, CaseOf(e, payment), p, w, rule);
            && |a.calls| == 1
            && a.calls[0].Execute? && a.calls[0].action.cost == e.amount <= settings.policy.threshold
            && (a.fields.Some? ==> a.fields.value.status != Some(PendingApproval))
  {
    ActivatedRefundAmount(u, rows, events, i, rule, e, payment.paymentMethod, history, w.hours);
    RefundWithinThreshold(settings, sys, CaseOf(e, payment), p, w, rule);
  }
}
