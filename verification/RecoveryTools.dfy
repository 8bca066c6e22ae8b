/** The payment tools: three that look things up and three that build an action for the executor, each with
    one idempotency key per payment. */
module RecoveryTools {
  import opened Wrappers
  import opened Rules
  import opened GuardModel
  import opened GuardRuns
  import opened RunViews
  import opened Replay
  import opened GuardSafety
  import opened AgentTools
  import A = AgentLoop

  datatype Payment = Payment(
    id: string, amount: real, status: string, paymentMethod: string, reason: Option<string>, orderId: Option<string>,
    customerId: Option<string>)

  datatype Order = Order(id: string, amount: real, status: string)

  datatype History = History(customerId: string, total: nat, successful: nat, failed: nat)

  datatype Lookup<T> = Found(value: T) | NotFound | Unreachable

  /** The provider's answers at each moment, and the JSON text of an amount. */
  datatype Provider = Provider(
    payment: (nat, string) -> Lookup<Payment>, order: (nat, string) -> Lookup<Order>,
    history: (nat, string) -> Lookup<History>, amountText: real -> Payload)

  datatype RecoveryCase = RecoveryCase(
    paymentId: string, amount: real, reason: string, paymentMethod: string,
    customerId: Option<string>, orderId: Option<string>)

  function SubjectOf(c: RecoveryCase): Subject {
    if c.customerId.Some? && c.customerId.value != "" then c.customerId.value else c.paymentId
  }

  // ---------------------------------------------------------------- the tools

  function OrNothing(s: Option<string>): Value { if s.Some? then Plain(s.value) else Nothing }

  function BoundedPayment(p: Payment): Value {
    Dict([Entry("id", Plain(p.id)), Entry("amount_inr", Figure(p.amount)), Entry("status", Plain(p.status)),
          Entry("method", Plain(p.paymentMethod)), Entry("failure_reason", OrNothing(p.reason)),
          Entry("order_id", OrNothing(p.orderId)), Entry("customer_id", OrNothing(p.customerId))])
  }

  function BoundedOrder(o: Order): Value {
    Dict([Entry("id", Plain(o.id)), Entry("amount_inr", Figure(o.amount)), Entry("status", Plain(o.status))])
  }

  function BoundedHistory(h: History): Value {
    Dict([Entry("customer_id", Plain(h.customerId)), Entry("total_payments", Figure(h.total as real)),
          Entry("successful_payments", Figure(h.successful as real)),
              Entry("failed_payments", Figure(h.failed as real))])
  }

  const NOT_FOUND: Value := Dict([Entry("error", Plain("not_found"))])

  /** A missing resource is an answer; any other provider failure raises. */
  function Fetched<T>(found: Lookup<T>, bounded: T -> Value): Option<Value> {
    match found
    case Found(v) => Some(bounded(v))
    case NotFound => Some(NOT_FOUND)
    case Unreachable => None
  }

  function TextArg(args: Args, name: string): string {
    if name in args && args[name].Str? then args[name].s else ""
  }

  function OneText(name: string): map<string, ToolParam> { map[name := ToolParam(StringParam, true)] }

  /** The kinds of effect, by the action name the executor knows them under. */
  const HANDLERS: set<string> := {"send_payment_link", "refund", "escalate_to_human"}

  function KeyFor(name: string, paymentId: string): Key {
    if name == "send_payment_link" then "link:" + paymentId
    else if name == "refund" then "refund:" + paymentId
    else "escalate:" + paymentId
  }

  function LinkAction(c: RecoveryCase, p: Provider, args: Args): Option<Action> {
    if "amount_inr" in args && args["amount_inr"].Num? then
      Some(Action("send_payment_link", SubjectOf(c), KeyFor("send_payment_link", c.paymentId), 0.0,
                  p.amountText(args["amount_inr"].n)))
    else None
  }

  /** The amount is the payment record's, never the model's. */
  function RefundAction(c: RecoveryCase, p: Provider, i: nat): Option<Action> {
    match p.payment(i, c.paymentId)
    case Found(payment) =>
      Some(Action("refund", SubjectOf(c), KeyFor("refund", c.paymentId), payment.amount, p.amountText(payment.amount)))
    case _ => None
  }

  function EscalateAction(c: RecoveryCase): Action {
    Action("escalate_to_human", SubjectOf(c), KeyFor("escalate_to_human", c.paymentId), 0.0, "")
  }

  function Tools(c: RecoveryCase, p: Provider): map<string, A.Tool> {
    map["fetch_payment" :=
          A.Read(OneText("payment_id"),
                 (i: nat, args: Args) => Fetched(p.payment(i, TextArg(args, "payment_id")), BoundedPayment)),
        "fetch_order" :=
          A.Read(OneText("order_id"),
                 (i: nat, args: Args) => Fetched(p.order(i, TextArg(args, "order_id")), BoundedOrder)),
        "fetch_customer_history" :=
          A.Read(OneText("customer_id"),
                 (i: nat, args: Args) => Fetched(p.history(i, TextArg(args, "customer_id")), BoundedHistory)),
        "create_payment_link" :=
          A.Effect(map["amount_inr" := ToolParam(NumberParam, true)], (i: nat, args: Args) => LinkAction(c, p, args)),
        "refund_payment" := A.Effect(map[], (i: nat, args: Args) => RefundAction(c, p, i)),
        "escalate_to_human" := A.Effect(map[], (i: nat, args: Args) => Some(EscalateAction(c)))]
  }

  // ---------------------------------------------------------------- one key per payment and kind

  /** What the executor is only ever asked to do on a payment's run: the three kinds, each under its key, of
      which only a refund costs anything. */
  predicate IsToolAction(a: Action, run: RunId) {
    a.name in HANDLERS && a.key == KeyFor(a.name, run) && (a.name != "refund" ==> a.cost == 0.0)
  }

  lemma ToolsBuildToolActions(c: RecoveryCase, p: Provider, name: string, i: nat, args: Args, a: Action)
    requires name in Tools(c, p) && Tools(c, p)[name].Effect? && Tools(c, p)[name].build(i, args) == Some(a)
    ensures IsToolAction(a, c.paymentId)
  {
    assert name in {"create_payment_link", "refund_payment", "escalate_to_human"};
  }

  /** Kinds and keys of one payment determine each other. */
  /** Whom an action on a payment is for: the customer, if one is known, or else the payment itself. */
  predicate IsFor(a: Action, c: RecoveryCase) {
    if c.customerId.None? || c.customerId == Some("") then a.subject == c.paymentId else Some(a.subject) == c.customerId
  }

  /** A refund is of the amount on the provider's record at that moment, in its cost and in what it asks for,
      whatever the arguments; it cannot be built exactly if there is no such record. */
  lemma RefundIsOfTheRecord(c: RecoveryCase, p: Provider, i: nat, args: Args)
    ensures var built, found := Tools(c, p)["refund_payment"].build(i, args), p.payment(i, c.paymentId);
            && (built.Some? <==> found.Found?)
            && (built.Some? ==>
                  && built.value.name == "refund" && built.value.key == "refund:" + c.paymentId && IsFor(built.value, c)
                  && built.value.cost == found.value.amount && built.value.params == p.amountText(found.value.amount))
  {
  }

  /** A link asks for the amount it was requested with and costs nothing. */
  lemma LinkIsOfTheArgument(c: RecoveryCase, p: Provider, i: nat, args: Args)
    requires Validated(Tools(c, p)["create_payment_link"].params, args).Some?
    ensures "amount_inr" in args && args["amount_inr"].Num?
    ensures var built := Tools(c, p)["create_payment_link"].build(i, args);
            && built.Some? && built.value.name == "send_payment_link" && built.value.key == "link:" + c.paymentId
            && IsFor(built.value, c) && built.value.cost == 0.0
                 && built.value.params == p.amountText(args["amount_inr"].n)
  {
  }

  lemma EscalationAsksNothing(c: RecoveryCase, p: Provider, i: nat, args: Args)
    ensures var built := Tools(c, p)["escalate_to_human"].build(i, args);
            && built.Some? && built.value.name == "escalate_to_human" && built.value.key == "escalate:" + c.paymentId
            && IsFor(built.value, c) && built.value.cost == 0.0 && built.value.params == ""
  {
  }

  predicate Answered<T>(found: Lookup<T>, answer: Option<Value>) {
    && (answer.None? <==> found.Unreachable?)
    && (found.NotFound? ==> answer.value == Dict([Entry("error", Plain("not_found"))]))
    && (found.Found? ==> answer.value.Dict?)
  }

  /** Looking something up raises exactly if the provider cannot be reached, says so if there is no such thing, and
      otherwise tells what the provider has under the id that was asked for. */
  lemma PaymentIsTold(c: RecoveryCase, p: Provider, i: nat, id: string)
    ensures var found, answer := p.payment(i, id),
        Tools(c, p)["fetch_payment"].handler(i, map["payment_id" := Str(id)]);
            && Answered(found, answer)
            && (found.Found? ==>
                  && AgentTools.Lookup(answer.value.entries, "id") == Some(Plain(found.value.id))
                  && AgentTools.Lookup(answer.value.entries, "amount_inr") == Some(Figure(found.value.amount))
                  && AgentTools.Lookup(answer.value.entries, "status") == Some(Plain(found.value.status))
                  && AgentTools.Lookup(answer.value.entries, "method") == Some(Plain(found.value.paymentMethod))
                  && AgentTools.Lookup(answer.value.entries, "failure_reason") == Some(OrNothing(found.value.reason))
                  && AgentTools.Lookup(answer.value.entries, "order_id") == Some(OrNothing(found.value.orderId))
                  && AgentTools.Lookup(answer.value.entries, "customer_id") == Some(OrNothing(found.value.customerId)))
  {
    var args: Args := map["payment_id" := Str(id)];
    assert TextArg(args, "payment_id") == id;
    assert Tools(c, p)["fetch_payment"].handler(i, args)
        == Fetched(p.payment(i, TextArg(args, "payment_id")), BoundedPayment);
    if p.payment(i, id).Found? {
      var told := BoundedPayment(p.payment(i, id).value).entries;
      assert told[0].key == "id" && told[1].key == "amount_inr" && told[2].key == "status" && told[3].key == "method";
      assert told[4].key == "failure_reason" && told[5].key == "order_id" && told[6].key == "customer_id";
      EachIsLookedUp(told);
    }
  }

  lemma OrderIsTold(c: RecoveryCase, p: Provider, i: nat, id: string)
    ensures var found, answer := p.order(i, id), Tools(c, p)["fetch_order"].handler(i, map["order_id" := Str(id)]);
            && Answered(found, answer)
            && (found.Found? ==>
                  && AgentTools.Lookup(answer.value.entries, "id") == Some(Plain(found.value.id))
                  && AgentTools.Lookup(answer.value.entries, "amount_inr") == Some(Figure(found.value.amount))
                  && AgentTools.Lookup(answer.value.entries, "status") == Some(Plain(found.value.status)))
  {
    var args: Args := map["order_id" := Str(id)];
    assert TextArg(args, "order_id") == id;
    assert Tools(c, p)["fetch_order"].handler(i, args) == Fetched(p.order(i, TextArg(args, "order_id")), BoundedOrder);
    if p.order(i, id).Found? {
      var told := BoundedOrder(p.order(i, id).value).entries;
      assert told[0].key == "id" && told[1].key == "amount_inr" && told[2].key == "status";
      EachIsLookedUp(told);
    }
  }

  lemma HistoryIsTold(c: RecoveryCase, p: Provider, i: nat, id: string)
    ensures var found, answer := p.history(i, id),
        Tools(c, p)["fetch_customer_history"].handler(i, map["customer_id" := Str(id)]);
            && Answered(found, answer)
            && (found.Found? ==>
                  && AgentTools.Lookup(answer.value.entries, "customer_id") == Some(Plain(found.value.customerId))
                  && AgentTools.Lookup(answer.value.entries, "total_payments")
                       == Some(Figure(found.value.total as real))
                  && AgentTools.Lookup(answer.value.entries, "successful_payments")
                       == Some(Figure(found.value.successful as real))
                  && AgentTools.Lookup(answer.value.entries, "failed_payments")
                       == Some(Figure(found.value.failed as real)))
  {
    var args: Args := map["customer_id" := Str(id)];
    assert TextArg(args, "customer_id") == id;
    assert Tools(c, p)["fetch_customer_history"].handler(i, args)
        == Fetched(p.history(i, TextArg(args, "customer_id")), BoundedHistory);
    if p.history(i, id).Found? {
      var told := BoundedHistory(p.history(i, id).value).entries;
      assert told[0].key == "customer_id" && told[1].key == "total_payments";
      assert told[2].key == "successful_payments" && told[3].key == "failed_payments";
      EachIsLookedUp(told);
    }
  }

  lemma KeysTellKindsApart(a: Action, b: Action, run: RunId)
    requires IsToolAction(a, run) && IsToolAction(b, run)
    ensures a.key == b.key <==> a.name == b.name
  {
    assert a.key[0] == (if a.name == "send_payment_link" then 'l' else if a.name == "refund" then 'r' else 'e');
    assert b.key[0] == (if b.name == "send_payment_link" then 'l' else if b.name == "refund" then 'r' else 'e');
  }

  /** Calls the pipeline and the approval endpoints make: executions of tool actions, and decisions. */
  predicate ToolCalls(calls: seq<Call>) {
    forall k :: 0 <= k < |calls| && calls[k].Execute? ==> IsToolAction(calls[k].action, calls[k].run)
  }

  // ---------------------------------------------------------------- nothing else ever reaches the store

  predicate OnlyToolRecords(approvals: map<ApprovalId, Approval>) {
    forall id :: id in approvals ==> IsToolAction(approvals[id].action, approvals[id].run)
  }

  predicate OnlyToolEntries(audit: seq<AuditEntry>) {
    forall i :: 0 <= i < |audit| ==> IsToolAction(audit[i].action, audit[i].run)
  }

  predicate OnlyToolEffects(effects: seq<Performed>) {
    forall i :: 0 <= i < |effects| ==> IsToolAction(effects[i].action, effects[i].run)
  }

  /** The three keys of a payment. */
  function KeysOf(run: RunId): set<(RunId, Key)> {
    {(run, KeyFor("send_payment_link", run)), (run, KeyFor("refund", run)), (run, KeyFor("escalate_to_human", run))}
  }

  predicate OnlyToolResults(results: map<(RunId, Key), IdemRecord>) {
    forall rk :: rk in results ==> rk in KeysOf(rk.0)
  }

  predicate OnlyTools(s: System) {
    && OnlyToolRecords(s.store.approvals) && OnlyToolEntries(s.store.audit)
    && OnlyToolResults(s.store.results) && OnlyToolEffects(s.effects)
  }

  predicate ToolCommit(c: Commit) {
    match c
    case Enqueue(r) => IsToolAction(r.action, r.run)
    case Effect(run, a) => IsToolAction(a, run)
    case Put(run, key, _) => (run, key) in KeysOf(run)
    case Audit(run, a, _) => IsToolAction(a, run)
    case _ => true
  }

  lemma ChainCommitsTools(q: Answers, p: Policy, run: RunId, registered: set<string>, a: Action, out: Outcome,
                          minted: ApprovalId)
    requires IsToolAction(a, run)
    ensures forall i :: 0 <= i < |ChainCommits(q, p, run, registered, a, out, minted)| ==>
              ToolCommit(ChainCommits(q, p, run, registered, a, out, minted)[i])
  {
  }

  lemma CallCommitsTools(s: System, p: Policy, c: Call)
    requires OnlyTools(s) && (c.Execute? ==> IsToolAction(c.action, c.run))
    ensures forall i :: 0 <= i < |Commits(s.store, p, c)| ==> ToolCommit(Commits(s.store, p, c)[i])
  {
    match c
    case Execute(run, reg, a, out, minted) =>
      ChainCommitsTools(Ask(s.store, run, a), p, run, reg, a, out, minted);
    case Approve(run, reg, id, out, minted) =>
      if Owned(s.store, run, id) {
        var a := s.store.approvals[id].action;
        var st := ApplyToStore(s.store, Decide(id, Approved));
        ChainCommitsTools(Ask(s.store, run, a), p, run, reg, a, out, minted);
        ChainCommitsTools(Ask(st, run, a), p, run, reg, a, out, minted);
      }
    case Reject(_, _) =>
  }

  lemma ApplyKeepsTools(s: System, c: Commit)
    requires OnlyTools(s) && ToolCommit(c)
    ensures OnlyTools(Apply(s, c))
  {
  }

  lemma {:induction false} CommitsKeepTools(s: System, cs: seq<Commit>)
    requires OnlyTools(s) && forall i :: 0 <= i < |cs| ==> ToolCommit(cs[i])
    ensures OnlyTools(ApplyAll(s, cs))
  {
    if cs != [] {
      CommitsKeepTools(s, cs[..|cs| - 1]);
      ApplyKeepsTools(ApplyAll(s, cs[..|cs| - 1]), cs[|cs| - 1]);
    }
  }

  lemma {:induction false} RunsKeepTools(p: Policy, calls: seq<Call>)
    requires ToolCalls(calls)
    ensures OnlyTools(RunAll(START, p, calls))
  {
    if calls != [] {
      var init, c := calls[..|calls| - 1], calls[|calls| - 1];
      assert forall k :: 0 <= k < |init| ==> init[k] == calls[k];
      RunsKeepTools(p, init);
      var s := RunAll(START, p, init);
      CallCommitsTools(s, p, c);
      CommitsKeepTools(s, Commits(s.store, p, c));
    }
  }

  lemma {:induction false} LogOfTools(audit: seq<AuditEntry>, run: RunId)
    requires OnlyToolEntries(audit)
    ensures forall i :: 0 <= i < |Log(audit, run)| ==> IsToolAction(Log(audit, run)[i].action, run)
  {
    if audit != [] { LogOfTools(audit[..|audit| - 1], run); }
  }

  lemma {:induction false} ExecutedTools(log: seq<AuditEntry>, run: RunId)
    requires forall i :: 0 <= i < |log| ==> IsToolAction(log[i].action, run)
    ensures forall i :: 0 <= i < |ExecutedActions(log)| ==> IsToolAction(ExecutedActions(log)[i], run)
  {
    if log != [] { ExecutedTools(log[..|log| - 1], run); }
  }

  // ---------------------------------------------------------------- at most one effect per payment and kind

  function Names(actions: seq<Action>): set<string> {
    if actions == [] then {} else Names(actions[..|actions| - 1]) + {actions[|actions| - 1].name}
  }

  lemma {:induction false} NamedOnce(actions: seq<Action>, name: string)
    requires name in Names(actions)
    ensures exists i :: 0 <= i < |actions| && actions[i].name == name
  {
    var n := |actions| - 1;
    if actions[n].name != name {
      NamedOnce(actions[..n], name);
      var i :| 0 <= i < |actions[..n]| && actions[..n][i].name == name;
      assert actions[i].name == name;
    }
  }

  lemma {:induction false} NamesCounted(actions: seq<Action>)
    requires forall i, j :: 0 <= i < j < |actions| ==> actions[i].name != actions[j].name
    ensures |Names(actions)| == |actions|
  {
    if actions != [] {
      var n := |actions| - 1;
      NamesCounted(actions[..n]);
      if actions[n].name in Names(actions[..n]) { NamedOnce(actions[..n], actions[n].name); }
    }
  }

  lemma {:induction false} NamesAreHandlers(actions: seq<Action>, run: RunId)
    requires forall i :: 0 <= i < |actions| ==> IsToolAction(actions[i], run)
    ensures Names(actions) <= HANDLERS
  {
    if actions != [] { NamesAreHandlers(actions[..|actions| - 1], run); }
  }

  /** Distinct keys among three kinds: no kind twice, three effects at most. */
  lemma FewKinds(actions: seq<Action>, run: RunId)
    requires DistinctActionKeys(actions) && forall i :: 0 <= i < |actions| ==> IsToolAction(actions[i], run)
    ensures forall i, j :: 0 <= i < j < |actions| ==> actions[i].name != actions[j].name
    ensures |actions| <= 3
  {
    forall i, j | 0 <= i < j < |actions|
      ensures actions[i].name != actions[j].name
    {
      KeysTellKindsApart(actions[i], actions[j], run);
    }
    NamesCounted(actions);
    NamesAreHandlers(actions, run);
    assert HANDLERS == Names(actions) + (HANDLERS - Names(actions));
  }

  /** Whatever events arrive, whatever the model answers, whatever the rules, however often an event is
      processed again, and whatever is approved: each payment's link, refund and escalation succeed at most
      once each. */
  lemma OneEffectPerPaymentAndKind(p: Policy, calls: seq<Call>, run: RunId)
    requires FreshIds(START, p, calls) && ToolCalls(calls)
    ensures var seen := EffectsOf(RunAll(START, p, calls).effects, run);
            && |seen| <= 3
            && (forall i :: 0 <= i < |seen| ==> IsToolAction(seen[i], run))
            && (forall i, j :: 0 <= i < j < |seen| ==> seen[i].name != seen[j].name)
  {
    var s := RunAll(START, p, calls);
    EffectsAreAccountedFor(p, calls, run);
    RunsKeepTools(p, calls);
    LogOfTools(s.store.audit, run);
    ExecutedTools(Log(s.store.audit, run), run);
    FewKinds(EffectsOf(s.effects, run), run);
  }
}
