/** The live pipeline over the ledger: how one event is processed, and what a drain does. */
module PipelineModel {
  import opened Wrappers
  import opened Rules
  import opened GuardModel
  import opened PaymentRules
  import opened RuleStore
  import opened AgentTools
  import opened RecoveryTools
  import A = AgentLoop

  /** What the live pipeline writes on an event once it has been handled. */
  datatype Mark = Mark(route: Option<string>, rule: Option<(string, nat)>, action: Option<string>)

  /** A verified, normalised webhook. An event's id is its position among the events. */
  datatype InternalEvent = InternalEvent(
    provider: string, eventId: string, isFailure: bool, paymentId: string, amount: real, reason: Option<string>,
    mark: Option<Mark>)

  datatype Path = Deterministic | Llm | DuplicateDelivery | Failed

  datatype Fields = Fields(
    path: Path, action: Option<string>, outcome: string, status: Option<Status>, rule: Option<(string, nat)>,
    approvalId: Option<ApprovalId>, trajectoryId: Option<nat>)

  /** A row of the outcome ledger; its id is its position. */
  datatype LedgerRow = LedgerRow(event: nat, provider: string, eventId: string, paymentId: string, fields: Fields)

  /** What is kept of an agent run that ended; its id is its position. */
  datatype Trajectory = Trajectory(steps: seq<A.Step>, outcome: A.AgentOutcome, resolution: Option<string>)

  datatype Live = Live(events: seq<InternalEvent>, ledger: seq<LedgerRow>, trajectories: seq<Trajectory>, sys: System)

  datatype Settings = Settings(policy: Policy, maxIterations: nat)

  /** What one attempt at processing finds: the adapter for the event's provider, the hours since the
      payment was created, the stored rules, and the surroundings of an agent run or rule execution.
      `latest` is the one of some approvals that was created last. */
  datatype Work = Work(
    provider: Option<Provider>, hours: Option<real>, rules: seq<RuleRow>,
    llm: (nat, seq<A.Shown>) -> A.Response, late: nat -> bool, outcomes: nat -> Outcome, minted: nat -> ApprovalId,
    detail: nat -> string, decode: Payload -> Value, latest: set<ApprovalId> -> ApprovalId)

  /** Every id the attempt might mint is new to the store, and none is minted twice. */
  ghost predicate MintsNew(w: Work, st: Store) {
    && (forall k :: w.minted(k) !in st.approvals)
    && (forall j, k :: j < k ==> w.minted(j) != w.minted(k))
  }

  /** The provider answers with the payment it was asked for. */
  ghost predicate AnswersAsAsked(w: Work) {
    w.provider.Some? ==>
      forall i, id :: w.provider.value.payment(i, id).Found? ==> w.provider.value.payment(i, id).value.id == id
  }

  // ---------------------------------------------------------------- the ledger

  function ForEvent(ledger: seq<LedgerRow>, event: nat): Option<nat> {
    if ledger == [] then None
    else if ledger[|ledger| - 1].event == event then Some(|ledger| - 1)
    else ForEvent(ledger[..|ledger| - 1], event)
  }

  predicate Acted(row: LedgerRow) { row.fields.path == Path.Deterministic || row.fields.path == Llm }

  /** The first row that acted on this delivery; an event without an id is never a redelivery. */
  function ProcessedDelivery(ledger: seq<LedgerRow>, provider: string, eventId: string): Option<nat> {
    if eventId == "" || ledger == [] then None
    else
      var n := |ledger| - 1;
      var earlier := ProcessedDelivery(ledger[..n], provider, eventId);
      if earlier.Some? then earlier
      else if Acted(ledger[n]) && ledger[n].provider == provider && ledger[n].eventId == eventId then Some(n)
      else None
  }

  // ---------------------------------------------------------------- routing and acting

  /** How an attempt to act ended: the world it left, the executor calls it made, what to record, None when
      it raised, and the trajectory it saved, if it ran the agent to an end. */
  datatype Attempt = Attempt(sys: System, calls: seq<Call>, fields: Option<Fields>, saved: Option<Trajectory>)

  function ReasonOf(e: InternalEvent): string { if e.reason.Some? then e.reason.value else "unknown" }

  function BuildContext(e: InternalEvent, paymentMethod: string, history: Option<History>,
                        hours: Option<real>): Context {
    map["failure_reason" := Str(ReasonOf(e)), "amount_inr" := Num(e.amount), "method" := Str(paymentMethod)]
    + (if history.Some? then map["customer_successful_payments" := Num(history.value.successful as real),
                                 "customer_failed_payments" := Num(history.value.failed as real)] else map[])
    + (if hours.Some? then map["hours_since_last_attempt" := Num(if hours.value < 0.0 then 0.0 else hours.value)]
       else map[])
  }

  function CaseOf(e: InternalEvent, payment: Payment): RecoveryCase {
    RecoveryCase(payment.id, payment.amount, ReasonOf(e), payment.paymentMethod, payment.customerId, payment.orderId)
  }

  /** The customer's history, if there is a customer and it is known; None when the provider fails. */
  function HistoryFor(p: Provider, customerId: Option<string>): Option<Option<History>> {
    if customerId.None? || customerId.value == "" then Some(None)
    else
      match p.history(0, customerId.value)
      case Found(h) => Some(Some(h))
      case NotFound => Some(None)
      case Unreachable => None
  }

  function RuleTool(action: string): Option<string> {
    match action
    case "send_payment_link" => Some("create_payment_link")
    case "refund" => Some("refund_payment")
    case "escalate_to_human" => Some("escalate_to_human")
    case _ => None
  }

  function OutcomeFor(status: Status, action: string): string {
    match status
    case PendingApproval => "pending_approval"
    case Duplicate => "duplicate"
    case RejectedActionBudget => "rejected"
    case RejectedSpendCap => "rejected"
    case RejectedBreakerOpen => "rejected"
    case Executed => if action == "escalate_to_human" then "escalated" else "resolved"
  }

  function RuleArgs(c: RecoveryCase, params: map<string, ToolParam>): Args {
    if "amount_inr" in params then map["amount_inr" := Num(c.amount)] else map[]
  }

  function RuleCall(c: RecoveryCase, w: Work, action: Action): Call {
    Call.Execute(c.paymentId, HANDLERS, action, w.outcomes(0), w.minted(0))
  }

  /** An active rule's action, carried out by the tool the agent would call. No model is asked. */
  function RunRule(settings: Settings, sys: System, c: RecoveryCase, p: Provider, w: Work, rule: LoadedRule): Attempt {
    var name := rule.rule.action.name;
    var base := Fields(Path.Deterministic, Some(name), "no_effect", None, Some((rule.key, rule.version)), None, None);
    var toolName := RuleTool(name);
    if toolName.None? then Attempt(sys, [], Some(base), None)
    else
      var tool := Tools(c, p)[toolName.value];
      var args := Validated(tool.params, RuleArgs(c, tool.params));
      if args.None? then Attempt(sys, [], Some(base.(outcome := "failed")), None)
      else
        var action := tool.build(0, args.value);
        if action.None? then Attempt(sys, [], None, None) else CarryOut(settings, sys, c, w, base, action.value)
  }

  function CarryOut(settings: Settings, sys: System, c: RecoveryCase, w: Work, base: Fields, action: Action): Attempt {
    var call := RuleCall(c, w, action);
    var reply := ReplyTo(sys.store, settings.policy, call);
    Attempt(CallOn(sys, settings.policy, call), [call],
            if !reply.Result? then None
            else Some(base.(status := Some(reply.status), outcome := OutcomeFor(reply.status, action.name),
                            approvalId := reply.approvalId)),
            None)
  }

  function AgentFor(settings: Settings, c: RecoveryCase, p: Provider, w: Work): A.Agent {
    A.Agent(c.paymentId, settings.policy, HANDLERS, Tools(c, p), settings.maxIterations, w.llm, w.late, w.outcomes,
            w.minted, w.detail, w.decode)
  }

  function OutcomeName(o: A.AgentOutcome): string {
    match o
    case Resolved => "resolved"
    case Escalated => "escalated"
    case AwaitingApproval => "pending_approval"
    case MaxIterations => "max_iterations"
    case FailedTimeout => "failed_timeout"
    case FailedMalformed => "failed_malformed_output"
    case RejectedByGuard => "rejected"
  }

  lemma OutcomeNamesTellApart(a: A.AgentOutcome, b: A.AgentOutcome)
    ensures OutcomeName(a) == OutcomeName(b) <==> a == b
  {
    var x, y := OutcomeName(a), OutcomeName(b);
    if a != b { assert |x| != |y| || x[0] != y[0] || x[2] != y[2]; }
  }

  /** The status of the last effect step. */
  function EffectStatus(steps: seq<A.Step>): Option<Status> {
    if steps == [] then None
    else
      var last := steps[|steps| - 1];
      if last.decision.EffectTaken? then Some(last.decision.status) else EffectStatus(steps[..|steps| - 1])
  }

  function Newest(w: Work, ids: set<ApprovalId>): Option<ApprovalId> {
    if ids == {} then None else Some(w.latest(ids))
  }

  /** What an agent run that ended leaves in the ledger: what its trajectory says, the trajectory's id, and the
      newest approval that waits if the run ended waiting. */
  function AgentFields(w: Work, st: Store, run: RunId, kept: Trajectory, id: nat): Fields {
    Fields(Llm, kept.resolution, OutcomeName(kept.outcome), EffectStatus(kept.steps), None,
           if kept.outcome == A.AwaitingApproval then Newest(w, PendingOf(st, run)) else None, Some(id))
  }

  /** `next` is the id the trajectory store gives next. */
  function RunAgent(settings: Settings, sys: System, next: nat, c: RecoveryCase, p: Provider, w: Work): Attempt {
    var (t, signal) := A.AgentRun(AgentFor(settings, c, p, w), sys);
    if !signal.Stop? then Attempt(t.sys, t.calls, None, None)
    else
      var kept := Trajectory(t.steps, signal.outcome, t.resolution);
      Attempt(t.sys, t.calls, Some(AgentFields(w, t.sys.store, c.paymentId, kept, next)), Some(kept))
  }

  function Act(settings: Settings, sys: System, next: nat, e: InternalEvent, p: Provider, payment: Payment,
               history: Option<History>, w: Work): Attempt
  {
    var c := CaseOf(e, payment);
    var chosen := Chosen(w.rules, PAYMENT_SCHEMA, BuildContext(e, payment.paymentMethod, history, w.hours));
    if chosen.Some? then RunRule(settings, sys, c, p, w, chosen.value) else RunAgent(settings, sys, next, c, p, w)
  }

  function RouteAndAct(settings: Settings, sys: System, next: nat, e: InternalEvent, w: Work): Attempt {
    if w.provider.None? then Attempt(sys, [], None, None)
    else
      var p := w.provider.value;
      match p.payment(0, e.paymentId)
      case Found(payment) =>
        var history := HistoryFor(p, payment.customerId);
        if history.None? then Attempt(sys, [], None, None)
        else Act(settings, sys, next, e, p, payment, history.value, w)
      case _ => Attempt(sys, [], None, None)
  }

  // ---------------------------------------------------------------- processing

  const FAILED := Fields(Failed, None, "failed", None, None, None, None)
  const REDELIVERED := Fields(DuplicateDelivery, None, "duplicate", None, None, None, None)

  function RowFor(id: nat, e: InternalEvent, fields: Fields): LedgerRow {
    LedgerRow(id, e.provider, e.eventId, e.paymentId, fields)
  }

  function MarkFor(fields: Fields): Mark {
    Mark(match fields.path
         case Deterministic => Some("deterministic")
         case Llm => Some("escalate_to_agent")
         case _ => None,
         fields.rule, fields.action)
  }

  /** An event that is to be acted on: known, a payment failure, without a row, and not a redelivery of one
      that was acted on. */
  predicate ToAct(l: Live, id: nat) {
    && id < |l.events| && l.events[id].isFailure
    && ForEvent(l.ledger, id).None?
    && ProcessedDelivery(l.ledger, l.events[id].provider, l.events[id].eventId).None?
  }

  /** What processing would do to the world before it writes the ledger. */
  function AttemptOn(settings: Settings, l: Live, id: nat, w: Work): Attempt {
    if ToAct(l, id) then RouteAndAct(settings, l.sys, |l.trajectories|, l.events[id], w)
    else Attempt(l.sys, [], None, None)
  }

  function Kept(a: Attempt): seq<Trajectory> { if a.saved.Some? then [a.saved.value] else [] }

  lemma RuleKeepsNothing(settings: Settings, sys: System, c: RecoveryCase, p: Provider, w: Work, rule: LoadedRule,
                         kept: seq<Trajectory>)
    ensures kept + Kept(RunRule(settings, sys, c, p, w, rule)) == kept
  {
  }

  /** An event acted on, with its ledger row, its mark and the trajectory that was saved. */
  function Handled(l: Live, id: nat, a: Attempt): Live
    requires id < |l.events|
  {
    var e, fields := l.events[id], if a.fields.Some? then a.fields.value else FAILED;
    Live(l.events[id := e.(mark := Some(MarkFor(fields)))], l.ledger + [RowFor(id, e, fields)],
        l.trajectories + Kept(a), a.sys)
  }

  function Process(settings: Settings, l: Live, id: nat, w: Work): (Live, Option<nat>) {
    if ForEvent(l.ledger, id).Some? then (l, ForEvent(l.ledger, id))
    else if id >= |l.events| || !l.events[id].isFailure then (l, None)
    else
      var e := l.events[id];
      if ProcessedDelivery(l.ledger, e.provider, e.eventId).Some? then
        (l.(ledger := l.ledger + [RowFor(id, e, REDELIVERED)]), Some(|l.ledger|))
      else
        (Handled(l, id, RouteAndAct(settings, l.sys, |l.trajectories|, e, w)), Some(|l.ledger|))
  }

  // ---------------------------------------------------------------- draining

  /** The failed-payment events without a row, oldest first. */
  function PendingUpTo(l: Live, n: nat): seq<nat>
    requires n <= |l.events|
  {
    if n == 0 then []
    else PendingUpTo(l, n - 1) + if l.events[n - 1].isFailure && ForEvent(l.ledger, n - 1).None? then [n - 1] else []
  }

  function PendingEvents(l: Live): seq<nat> { PendingUpTo(l, |l.events|) }

  function ProcessAll(settings: Settings, l: Live, ids: seq<nat>, works: nat -> Work): Live {
    if ids == [] then l
    else
      var n := |ids| - 1;
      Process(settings, ProcessAll(settings, l, ids[..n], works), ids[n], works(n)).0
  }

  function DrainIds(l: Live, limit: nat): seq<nat> { Take(PendingEvents(l), limit) }

  function Drain(settings: Settings, l: Live, limit: nat, works: nat -> Work): (Live, nat) {
    (ProcessAll(settings, l, DrainIds(l, limit), works), |DrainIds(l, limit)|)
  }

  /** No attempt of the drain mints an id the store has by then. */
  ghost predicate FreshDrain(settings: Settings, l: Live, ids: seq<nat>, works: nat -> Work) {
    ids == []
    || (var n := |ids| - 1;
        FreshDrain(settings, l, ids[..n], works)
            && MintsNew(works(n), ProcessAll(settings, l, ids[..n], works).sys.store))
  }

  lemma {:induction false} FreshDrainAt(settings: Settings, l: Live, ids: seq<nat>, works: nat -> Work, i: nat)
    requires FreshDrain(settings, l, ids, works) && i < |ids|
    ensures MintsNew(works(i), ProcessAll(settings, l, ids[..i], works).sys.store)
  {
    var init := ids[..|ids| - 1];
    if i < |init| {
      assert init[..i] == ids[..i];
      FreshDrainAt(settings, l, init, works, i);
    }
  }
}
