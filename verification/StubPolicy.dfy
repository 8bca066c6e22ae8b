/** The offline stub model: its decisions, and the proof that what a run of it does depends on the failure
    reason alone. */
module StubPolicy {
  import opened Wrappers
  import opened Rules
  import opened GuardModel
  import opened AgentTools
  import opened AgentLoop
  import opened RecoveryTools
  import opened PaymentRules
  import opened RuleStore
  import Distillation
  import E = Evaluation
  import Meaning

  const SEND_LINK_REASONS: set<string> := {
    "insufficient_funds", "card_declined", "expired_card", "invalid_details", "authentication_required",
        "processing_error"}

  const EFFECT_TOOLS: set<string> := {"create_payment_link", "refund_payment", "escalate_to_human"}

  predicate HasUsed(history: seq<Shown>, tool: string) {
    exists i :: 0 <= i < |history| && history[i].tool == tool
  }

  predicate EffectUsed(history: seq<Shown>) {
    exists i :: 0 <= i < |history| && history[i].tool in EFFECT_TOOLS
  }

  function LastEffectTool(history: seq<Shown>): Json {
    if history == [] then Null
    else
      var last := history[|history| - 1].tool;
      if last in EFFECT_TOOLS then Str(last) else LastEffectTool(history[..|history| - 1])
  }

  function CallJson(thought: string, tool: string, args: Args): Json {
    Obj(map["thought" := Str(thought), "action" := Obj(map["tool" := Str(tool), "args" := Obj(args)])])
  }

  function FinalJson(thought: string, resolution: Json): Json {
    Obj(map["thought" := Str(thought), "final" := Obj(map["resolution" := resolution])])
  }

  predicate KnowsCustomer(c: RecoveryCase) { c.customerId.Some? && c.customerId.value != "" }

  predicate SendsLink(reason: string, tools: set<string>) {
    reason in SEND_LINK_REASONS && "create_payment_link" in tools
  }

  /** Look, look again if there is a customer, act on the failure reason, finish. */
  function Decide(c: RecoveryCase, tools: set<string>, history: seq<Shown>): Json {
    if EffectUsed(history) then FinalJson("resolved", LastEffectTool(history))
    else if "fetch_payment" in tools && !HasUsed(history, "fetch_payment") then
      CallJson("inspect the payment", "fetch_payment", map["payment_id" := Str(c.paymentId)])
    else if "fetch_customer_history" in tools && KnowsCustomer(c) && !HasUsed(history, "fetch_customer_history") then
      CallJson("check customer history", "fetch_customer_history", map["customer_id" := Str(c.customerId.value)])
    else if SendsLink(c.reason, tools) then
      CallJson("let the customer retry via a new link", "create_payment_link", map["amount_inr" := Num(c.amount)])
    else CallJson("needs a human", "escalate_to_human", map[])
  }

  /** The action the stub resolves a reason to. */
  function StubAction(reason: string): string {
    if reason in SEND_LINK_REASONS then "send_payment_link" else "escalate_to_human"
  }

  /** A case given to the stub, with the payment tools and handlers, a provider that can be reached, effect
      handlers that return, and no deadline passed. Store, policy and provider data are arbitrary. */
  ghost predicate StubRun(g: Agent, c: RecoveryCase, p: Provider) {
    && g.run == c.paymentId && g.handlers == HANDLERS && g.tools == Tools(c, p)
    && (forall i, history :: g.llm(i, history).json == Some(Decide(c, g.tools.Keys, history)))
    && (forall i :: !g.late(i) && g.outcomes(i).Returned?)
    && (forall i, id :: !p.payment(i, id).Unreachable? && !p.history(i, id).Unreachable?)
  }

  lemma CallJsonParses(text: string, thought: string, tool: string, args: Args)
    ensures ParseDecision(Response(text, Some(CallJson(thought, tool, args)))) == Some(CallTool(thought, tool, args))
  {
  }

  /** A call of a tool that reads: the run goes on with one more step, and no effect. */
  ghost predicate ReadOn(s: Progress, t: Progress, tool: string) {
    && t.sys == s.sys && t.status == s.status && t.resolution == s.resolution
    && |t.history| == |s.history| + 1 && t.history[..|s.history|] == s.history && t.history[|s.history|].tool == tool
  }

  lemma ReadTurn(g: Agent, s: Progress, i: nat, thought: string, tool: string, args: Args)
    requires !g.late(i) && ParseDecision(g.llm(i, s.history)) == Some(CallTool(thought, tool, args))
    requires tool in g.tools && g.tools[tool].Read? && g.tools[tool].handler(i, args).Some?
    ensures var (t, signal) := Turn(g, s, i); signal.Continue? && ReadOn(s, t, tool)
  {
  }

  lemma StubAnswers(g: Agent, c: RecoveryCase, p: Provider, history: seq<Shown>, i: nat, thought: string, tool: string,
                    args: Args)
    requires StubRun(g, c, p) && Decide(c, g.tools.Keys, history) == CallJson(thought, tool, args)
    ensures ParseDecision(g.llm(i, history)) == Some(CallTool(thought, tool, args))
  {
    var response := g.llm(i, history);
    CallJsonParses(response.text, thought, tool, args);
    assert response == Response(response.text, Some(CallJson(thought, tool, args)));
  }

  lemma FetchTurn(g: Agent, c: RecoveryCase, p: Provider, s: Progress, i: nat)
    requires StubRun(g, c, p) && s.history == []
    ensures var (t, signal) := Turn(g, s, i); signal.Continue? && ReadOn(s, t, "fetch_payment")
  {
    var args: Args := map["payment_id" := Str(c.paymentId)];
    StubAnswers(g, c, p, s.history, i, "inspect the payment", "fetch_payment", args);
    assert !p.payment(i, TextArg(args, "payment_id")).Unreachable?;
    ReadTurn(g, s, i, "inspect the payment", "fetch_payment", args);
  }

  lemma HistoryTurn(g: Agent, c: RecoveryCase, p: Provider, s: Progress, i: nat)
    requires StubRun(g, c, p) && |s.history| == 1 && s.history[0].tool == "fetch_payment" && KnowsCustomer(c)
    ensures var (t, signal) := Turn(g, s, i); signal.Continue? && ReadOn(s, t, "fetch_customer_history")
  {
    var args: Args := map["customer_id" := Str(c.customerId.value)];
    assert HasUsed(s.history, "fetch_payment") && !HasUsed(s.history, "fetch_customer_history")
        && !EffectUsed(s.history);
    StubAnswers(g, c, p, s.history, i, "check customer history", "fetch_customer_history", args);
    assert !p.history(i, TextArg(args, "customer_id")).Unreachable?;
    ReadTurn(g, s, i, "check customer history", "fetch_customer_history", args);
  }

  /** Everything looked at that the stub looks at. */
  predicate Inspected(c: RecoveryCase, history: seq<Shown>) {
    && !EffectUsed(history)
    && HasUsed(history, "fetch_payment")
    && (KnowsCustomer(c) ==> HasUsed(history, "fetch_customer_history"))
  }

  /** A call of an effect tool whose handler returns: one more step, and the action is the resolution. */
  lemma ActTurn(g: Agent, s: Progress, i: nat, thought: string, tool: string, args: Args, action: Action)
    requires !g.late(i) && ParseDecision(g.llm(i, s.history)) == Some(CallTool(thought, tool, args))
    requires tool in g.tools && g.tools[tool].Effect? && Validated(g.tools[tool].params, args) == Some(args)
    requires g.tools[tool].build(i, args) == Some(action) && action.name in g.handlers && g.outcomes(i).Returned?
    ensures var (t, signal) := Turn(g, s, i);
            && signal.Continue? && t.resolution == Some(action.name)
            && |t.history| == |s.history| + 1 && t.history[|s.history|].tool == tool
  {
  }

  predicate Uses(tool: string, args: Args, c: RecoveryCase) {
    if c.reason in SEND_LINK_REASONS then tool == "create_payment_link" && args == map["amount_inr" := Num(c.amount)]
    else tool == "escalate_to_human" && args == map[]
  }

  lemma EffectTool(c: RecoveryCase, p: Provider, i: nat, tool: string, args: Args) returns (action: Action)
    requires Uses(tool, args, c)
    ensures tool in Tools(c, p) && Tools(c, p)[tool].Effect? && Validated(Tools(c, p)[tool].params, args) == Some(args)
    ensures Tools(c, p)[tool].build(i, args) == Some(action) && action.name == StubAction(c.reason)
        && action.name in HANDLERS
  {
    action := Tools(c, p)[tool].build(i, args).value;
  }

  lemma EffectTurn(g: Agent, c: RecoveryCase, p: Provider, s: Progress, i: nat)
    requires StubRun(g, c, p) && Inspected(c, s.history)
    ensures var (t, signal) := Turn(g, s, i);
            signal.Continue? && t.resolution == Some(StubAction(c.reason)) && EffectUsed(t.history)
  {
    var thought := if c.reason in SEND_LINK_REASONS then "let the customer retry via a new link" else "needs a human";
    var tool := if c.reason in SEND_LINK_REASONS then "create_payment_link" else "escalate_to_human";
    var args: Args := if c.reason in SEND_LINK_REASONS then map["amount_inr" := Num(c.amount)] else map[];
    StubAnswers(g, c, p, s.history, i, thought, tool, args);
    var action := EffectTool(c, p, i, tool, args);
    ActTurn(g, s, i, thought, tool, args, action);
  }

  lemma FinalTurn(g: Agent, c: RecoveryCase, p: Provider, s: Progress, i: nat)
    requires StubRun(g, c, p) && EffectUsed(s.history)
    ensures var (t, signal) := Turn(g, s, i); signal.Stop? && t.resolution == s.resolution
  {
    var response := g.llm(i, s.history);
    assert response == Response(response.text, Some(Decide(c, g.tools.Keys, s.history)));
  }

  lemma FinishesFrom(g: Agent, c: RecoveryCase, p: Provider, s: Progress, i: nat)
    requires StubRun(g, c, p) && Inspected(c, s.history) && i <= g.maxIterations
    ensures var (t, signal) := RunFrom(g, s, i); signal.Stop? && t.resolution == Some(StubAction(c.reason))
  {
    EffectTurn(g, c, p, s, i);
    var (t, _) := Turn(g, s, i);
    if i + 1 <= g.maxIterations { FinalTurn(g, c, p, t, i + 1); }
  }

  lemma BothInspected(c: RecoveryCase, s: Progress, t: Progress)
    requires |s.history| == 1 && s.history[0].tool == "fetch_payment" && ReadOn(s, t, "fetch_customer_history")
    ensures Inspected(c, t.history)
  {
    assert t.history[0] == t.history[..1][0];
    assert t.history[0].tool == "fetch_payment" && t.history[1].tool == "fetch_customer_history";
  }

  lemma FinishesFromSecond(g: Agent, c: RecoveryCase, p: Provider, s: Progress)
    requires StubRun(g, c, p) && g.maxIterations >= 3
    requires |s.history| == 1 && s.history[0].tool == "fetch_payment"
    ensures var (t, signal) := RunFrom(g, s, 2); signal.Stop? && t.resolution == Some(StubAction(c.reason))
  {
    if KnowsCustomer(c) {
      HistoryTurn(g, c, p, s, 2);
      var (t, _) := Turn(g, s, 2);
      BothInspected(c, s, t);
      FinishesFrom(g, c, p, t, 3);
    } else {
      assert HasUsed(s.history, "fetch_payment");
      FinishesFrom(g, c, p, s, 2);
    }
  }

  /** Whatever the amount, customer, provider data, policy and earlier history of the store: given three
      iterations, a run of the stub ends with the action its failure reason alone determines. */
  lemma StubActsOnReason(g: Agent, c: RecoveryCase, p: Provider, sys: System)
    requires StubRun(g, c, p) && g.maxIterations >= 3
    ensures var (t, signal) := AgentRun(g, sys); signal.Stop? && t.resolution == Some(StubAction(c.reason))
  {
    FetchTurn(g, c, p, Began(sys), 1);
    var (t, _) := Turn(g, Began(sys), 1);
    FinishesFromSecond(g, c, p, t);
  }

  // ---------------------------------------------------------------- the stub in the evaluation

  function GivenCase(c: E.Case): RecoveryCase {
    RecoveryCase(c.paymentId, c.amount, c.reason, c.paymentMethod, Some(c.customerId), Some(c.orderId))
  }

  /** The provider of one evaluation case, which knows that case's payment, order and customer. */
  function SeededProvider(c: E.Case, amountText: real -> Payload): Provider {
    Provider(
      (i: nat, id: string) =>
        if id == c.paymentId
        then Found(Payment(id, c.amount, "failed", c.paymentMethod, Some(c.reason), Some(c.orderId),
            Some(c.customerId)))
        else NotFound,
      (i: nat, id: string) => if id == c.orderId then Found(Order(id, c.amount, "attempted")) else NotFound,
      (i: nat, id: string) =>
        if id == c.customerId then Found(History(id, c.successes + c.failures, c.successes, c.failures)) else NotFound,
      amountText)
  }

  /** What an evaluation leaves open about its agent runs: policy and iterations from the settings, and the
      texts, ids and results that come out of them. */
  datatype Bench = Bench(
    policy: Policy, maxIterations: nat, texts: (nat, seq<Shown>) -> string, results: nat -> Payload,
    minted: nat -> ApprovalId, detail: nat -> string, decode: Payload -> Value, amountText: real -> Payload)

  /** The agent of one evaluation case: the stub, on a provider seeded for the case. */
  function StubAgent(b: Bench, c: E.Case): Agent {
    var tools := Tools(GivenCase(c), SeededProvider(c, b.amountText));
    Agent(c.paymentId, b.policy, HANDLERS, tools, b.maxIterations,
          (i: nat, history: seq<Shown>) => Response(b.texts(i, history),
              Some(Decide(GivenCase(c), tools.Keys, history))),
          (i: nat) => false, (i: nat) => Returned(b.results(i)), b.minted, b.detail, b.decode)
  }

  /** The action such a run resolves to; each run has a store of its own. */
  function StubResolution(b: Bench, c: E.Case): Option<string> { AgentRun(StubAgent(b, c), START).0.resolution }

  lemma StubResolvesByReason(b: Bench, c: E.Case)
    requires b.maxIterations >= 3
    ensures StubResolution(b, c) == Some(StubAction(c.reason))
  {
    StubActsOnReason(StubAgent(b, c), GivenCase(c), SeededProvider(c, b.amountText), START);
  }

  /** End to end: where the agent is the stub, run on each case through the loop and the guarded executor, and
      the proposer returns the suggestion, the distilled evaluation of any database without usable active rules
      decides every case as the baseline does, and every shadow match agrees. */
  lemma StubEvaluationUnchanged(b: Bench, lab: E.Lab, u: Distillation.Setup, rows: seq<RuleRow>, cases: seq<E.Case>)
    requires Distillation.ValidSetup(u) && Meaning.Echoes(u) && b.maxIterations >= 3
    requires forall c: E.Case :: lab.agent(c) == StubResolution(b, c)
    requires Meaning.HandWritten(rows) && ListByStatus(rows, Active, PAYMENT_SCHEMA) == []
    ensures Meaning.SameDecisions(lab, u, E.Prepared(rows), E.Prepared(rows), cases)
    ensures Meaning.AllAgree(E.AfterCases(lab, u, E.Prepared(rows), cases).shadow)
  {
    var base := E.Prepared(rows);
    StubIsReasonAgent(b, lab, Meaning.ANYTHING);
    Meaning.SeedsAreUniform(Meaning.ANYTHING, rows);
    Meaning.UniformIsSettled(Meaning.ANYTHING, base);
    Meaning.DistillationPreservesMeaning(lab, u, Meaning.ANYTHING, base, base, cases);
    Meaning.ShadowAgrees(lab, u, Meaning.ANYTHING, base, base, cases);
  }

  lemma StubIsReasonAgent(b: Bench, lab: E.Lab, possible: iset<Context>)
    requires b.maxIterations >= 3 && forall c: E.Case :: lab.agent(c) == StubResolution(b, c)
    ensures Meaning.ReasonAgent(lab, possible)
  {
    forall c: E.Case, d: E.Case | c.reason == d.reason ensures lab.agent(c) == lab.agent(d) {
      StubResolvesByReason(b, c);
      StubResolvesByReason(b, d);
    }
  }
}
