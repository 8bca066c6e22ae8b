/** The agent loop: one bounded run against a guarded executor, the trajectory it records, and how that
    trajectory lines up with what the model was shown and what the executor audited. */
module AgentLoop {
  import opened Wrappers
  import opened Rules
  import opened GuardModel
  import opened Isolation
  import opened AgentTools
  import E = Executor

  /** The model's text, and the JSON it parses to, if it does. */
  datatype Response = Response(text: string, json: Option<Json>)

  datatype Choice =
    | Final(thought: string, resolution: Option<string>)
    | CallTool(thought: string, tool: string, args: Args)

  datatype Tool =
    | Read(params: map<string, ToolParam>, handler: (nat, Args) -> Option<Value>)
    | Effect(params: map<string, ToolParam>, build: (nat, Args) -> Option<Action>)

  datatype AgentOutcome =
    | Resolved | Escalated | AwaitingApproval | MaxIterations | FailedTimeout | FailedMalformed | RejectedByGuard

  datatype StepDecision =
    | MalformedOutput | FinalAnswer | RejectedUnknownTool | RejectedInvalidArgs | RejectedEffectError
    | ToolCall | EffectTaken(status: Status)

  datatype Step = Step(
    index: nat, thought: string, tool: Option<string>, args: Option<Args>, decision: StepDecision, observation: Value)

  /** What one step adds to the history the model is shown. */
  datatype Shown = Shown(tool: string, args: Args, observation: Value)

  /** One run's surroundings. At iteration i the model answers `llm(i, history)`, the deadline has passed if
      `late(i)`, a tool that is called does what its handler or builder does at i, and an effect handler
      that is reached does `outcomes(i)`; None is a handler or builder that raises. `detail(i)` is the text
      that goes with what happens at i, and `decode` the value a stored result's JSON text stands for. */
  datatype Agent = Agent(
    run: RunId, policy: Policy, handlers: set<string>, tools: map<string, Tool>, maxIterations: nat,
    llm: (nat, seq<Shown>) -> Response, late: nat -> bool, outcomes: nat -> Outcome, minted: nat -> ApprovalId,
    detail: nat -> string, decode: Payload -> Value)

  /** A run in progress: the world, the trajectory and history so far, the last effect's status and action,
      the executor calls made and the number of requests to the model. */
  datatype Progress = Progress(
    sys: System, steps: seq<Step>, history: seq<Shown>, status: Option<Status>, resolution: Option<string>,
    calls: seq<Call>, asked: nat)

  datatype Signal = Continue | Stop(outcome: AgentOutcome) | Raise(error: string)

  // ---------------------------------------------------------------- one decision

  function ThoughtOf(data: map<string, Json>): string {
    if "thought" in data && data["thought"].Str? then data["thought"].s else ""
  }

  function ResolutionOf(final: Json): Option<string> {
    if final.Obj? && "resolution" in final.fields && final.fields["resolution"].Str? then
      Some(final.fields["resolution"].s)
    else None
  }

  function ParseDecision(response: Response): Option<Choice> {
    if response.json.None? || !response.json.value.Obj? then None
    else
      var data := response.json.value.fields;
      if "final" in data && "action" !in data then Some(Final(ThoughtOf(data), ResolutionOf(data["final"])))
      else if "action" in data && "final" !in data then ParseCall(ThoughtOf(data), data["action"])
      else None
  }

  function ParseCall(thought: string, action: Json): Option<Choice> {
    if !action.Obj? || "tool" !in action.fields || !action.fields["tool"].Str? then None
    else
      var args := if "args" in action.fields then action.fields["args"] else Obj(map[]);
      if !args.Obj? then None else Some(CallTool(thought, action.fields["tool"].s, args.fields))
  }

  /** A model's decision as it is asked to write it. */
  function Written(choice: Choice): Json {
    match choice
    case Final(thought, resolution) =>
      Obj(map["thought" := Str(thought),
              "final" := Obj(if resolution.Some? then map["resolution" := Str(resolution.value)] else map[])])
    case CallTool(thought, tool, args) =>
      Obj(map["thought" := Str(thought), "action" := Obj(map["tool" := Str(tool), "args" := Obj(args)])])
  }

  /** What is written as asked is read as meant. */
  lemma DecisionsRoundTrip(text: string, choice: Choice)
    ensures ParseDecision(Response(text, Some(Written(choice)))) == Some(choice)
  {
  }

  /** Anything is malformed exactly if it is no object with either a final answer or a call of a named tool on
      arguments, which may be missing; so it is if it has both. */
  lemma MalformedExactly(response: Response)
    ensures ParseDecision(response) == None <==>
            !(response.json.Some? && response.json.value.Obj?
              && var data := response.json.value.fields;
                 || ("final" in data && "action" !in data)
                 || ("action" in data && "final" !in data && data["action"].Obj?
                     && var call := data["action"].fields;
                        "tool" in call && call["tool"].Str? && ("args" in call ==> call["args"].Obj?)))
  {
  }

  function FinalOutcome(resolution: Option<string>, status: Option<Status>, taken: Option<string>): AgentOutcome {
    if status == Some(PendingApproval) then AwaitingApproval
    else if status in {Some(RejectedActionBudget), Some(RejectedSpendCap), Some(RejectedBreakerOpen)}
    then RejectedByGuard
    else if (if taken.Some? && taken.value != "" then taken else resolution) == Some("escalate_to_human") then Escalated
    else Resolved
  }

  // ---------------------------------------------------------------- one iteration

  function Noted(s: Progress, step: Step): Progress { s.(steps := s.steps + [step]) }

  /** The step goes on record and into the history. */
  function Told(s: Progress, i: nat, thought: string, tool: string, args: Args, decision: StepDecision,
                observation: Value)
    : Progress
  {
    s.(steps := s.steps + [Step(i, thought, Some(tool), Some(args), decision, observation)],
       history := s.history + [Shown(tool, args, observation)])
  }

  function UnknownTool(tool: string): Value {
    Dict([Entry("error", Plain("unknown_tool")), Entry("tool", Plain(tool))])
  }

  function ErrorValue(error: string, detail: string): Value {
    Dict([Entry("error", Plain(error)), Entry("detail", Plain(detail))])
  }

  function RawText(text: string): Value { Dict([Entry("raw", Plain(text))]) }

  /** What a final answer says the run came to. */
  function Declared(resolution: Option<string>): Value {
    Dict([Entry("resolution", if resolution.Some? then Plain(resolution.value) else Nothing)])
  }

  function StatusName(status: Status): string {
    match status
    case Executed => "executed"
    case Duplicate => "duplicate"
    case PendingApproval => "pending_approval"
    case RejectedActionBudget => "rejected_action_budget"
    case RejectedSpendCap => "rejected_spend_cap"
    case RejectedBreakerOpen => "rejected_breaker_open"
  }

  /** No two statuses are shown alike. */
  lemma StatusNamesTellApart(a: Status, b: Status)
    ensures StatusName(a) == StatusName(b) <==> a == b
    ensures StatusName(Executed) == "executed" && StatusName(Duplicate) == "duplicate"
    ensures StatusName(PendingApproval) == "pending_approval"
  {
    if a != b { assert |StatusName(a)| != |StatusName(b)|; }
  }

  function EffectObservation(g: Agent, reply: Reply, i: nat): Value
    requires reply.Result?
  {
    Bound(Dict([Entry("status", Plain(StatusName(reply.status))),
                Entry("result", if reply.result.Some? then g.decode(reply.result.value) else Nothing),
                Entry("detail", Plain(g.detail(i)))]), 0)
  }

  /** What the model is shown of an effect: its status by name, its result and the detail, cut to the bounds. */
  lemma EffectIsShown(g: Agent, reply: Reply, i: nat)
    requires reply.Result?
    ensures var shown := EffectObservation(g, reply, i);
            && shown.Dict?
            && Lookup(shown.entries, "status") == Some(Plain(StatusName(reply.status)))
            && Lookup(shown.entries, "result")
               == Some(if reply.result.Some? then Bound(g.decode(reply.result.value), 1) else Nothing)
            && Lookup(shown.entries, "detail") == Some(Bound(Plain(g.detail(i)), 1))
  {
    var entries := [Entry("status", Plain(StatusName(reply.status))),
                    Entry("result", if reply.result.Some? then g.decode(reply.result.value) else Nothing),
                    Entry("detail", Plain(g.detail(i)))];
    assert EffectObservation(g, reply, i) == Dict(BoundEntries(entries, 0));
    assert entries[..2] == [entries[0], entries[1]] && entries[..2][..1] == [entries[0]];
    assert LastCutTo(entries, "detail") == Some(entries[2].value);
    assert LastCutTo(entries, "result") == LastCutTo(entries[..2], "result") == Some(entries[1].value);
    assert LastCutTo(entries, "status") == LastCutTo(entries[..2], "status") == LastCutTo(entries[..2][..1], "status");
    BoundedLookup(entries, 0, "status");
    BoundedLookup(entries, 0, "result");
    BoundedLookup(entries, 0, "detail");
  }

  /** What it is shown of a request that came to nothing, and of its own last word. */
  lemma RefusalsAreShown(tool: string, error: string, detail: string, resolution: Option<string>, text: string)
    ensures var shown := UnknownTool(tool);
            shown.Dict? && Lookup(shown.entries, "error") == Some(Plain("unknown_tool"))
            && Lookup(shown.entries, "tool") == Some(Plain(tool))
    ensures var shown := ErrorValue(error, detail);
            shown.Dict? && Lookup(shown.entries, "error") == Some(Plain(error))
            && Lookup(shown.entries, "detail") == Some(Plain(detail))
    ensures var shown := Declared(resolution);
            shown.Dict? && Lookup(shown.entries, "resolution")
                == Some(if resolution.Some? then Plain(resolution.value) else Nothing)
    ensures RawText(text).Dict? && Lookup(RawText(text).entries, "raw") == Some(Plain(text))
  {
    EachIsLookedUp([Entry("error", Plain("unknown_tool")), Entry("tool", Plain(tool))]);
    EachIsLookedUp([Entry("error", Plain(error)), Entry("detail", Plain(detail))]);
  }

  function EffectCall(g: Agent, action: Action, i: nat): Call {
    Call.Execute(g.run, g.handlers, action, g.outcomes(i), g.minted(i))
  }

  function TakeEffect(g: Agent, s: Progress, i: nat, thought: string, tool: string, args: Args, action: Action)
    : (Progress, Signal)
  {
    var call := EffectCall(g, action, i);
    var reply := ReplyTo(s.sys.store, g.policy, call);
    var t := s.(sys := CallOn(s.sys, g.policy, call), calls := s.calls + [call]);
    if !reply.Result? then (t, Raise("effect raised"))
    else
      (Told(t.(status := Some(reply.status), resolution := Some(action.name)), i, thought, tool, args,
            EffectTaken(reply.status), EffectObservation(g, reply, i)), Continue)
  }

  function ToolTurn(g: Agent, s: Progress, i: nat, thought: string, tool: string, args: Args): (Progress, Signal) {
    if tool !in g.tools then
      (Told(s, i, thought, tool, args, RejectedUnknownTool, UnknownTool(tool)), Continue)
    else
      var valid := Validated(g.tools[tool].params, args);
      if valid.None? then
        (Told(s, i, thought, tool, args, RejectedInvalidArgs, ErrorValue("invalid_arguments", g.detail(i))), Continue)
      else
        match g.tools[tool]
        case Read(_, handler) =>
          var v := handler(i, valid.value);
          if v.None? then (s, Raise("tool raised"))
          else (Told(s, i, thought, tool, valid.value, ToolCall, Bound(v.value, 0)), Continue)
        case Effect(_, build) =>
          var action := build(i, valid.value);
          if action.None? then
            (Told(s, i, thought, tool, valid.value, RejectedEffectError, ErrorValue("effect_unavailable", g.detail(i))),
                Continue)
          else TakeEffect(g, s, i, thought, tool, valid.value, action.value)
  }

  /** What becomes of the model's answer. */
  function Follow(g: Agent, t: Progress, i: nat, response: Response): (Progress, Signal) {
    match ParseDecision(response)
    case None =>
      (Noted(t, Step(i, "", None, None, MalformedOutput, RawText(response.text))), Stop(FailedMalformed))
    case Some(Final(thought, resolution)) =>
      (Noted(t, Step(i, thought, None, None, FinalAnswer, Declared(resolution))),
       Stop(FinalOutcome(resolution, t.status, t.resolution)))
    case Some(CallTool(thought, tool, args)) => ToolTurn(g, t, i, thought, tool, args)
  }

  function Turn(g: Agent, s: Progress, i: nat): (Progress, Signal) {
    if g.late(i) then (s, Stop(FailedTimeout)) else Follow(g, s.(asked := s.asked + 1), i, g.llm(i, s.history))
  }

  // ---------------------------------------------------------------- whole runs

  /** From iteration `i` on; the signal is how the run ended, never Continue. */
  function RunFrom(g: Agent, s: Progress, i: nat): (Progress, Signal)
    decreases g.maxIterations + 1 - i
  {
    if i > g.maxIterations then (s, Stop(MaxIterations))
    else
      var (t, signal) := Turn(g, s, i);
      if signal.Continue? then RunFrom(g, t, i + 1) else (t, signal)
  }

  function Began(sys: System): Progress { Progress(sys, [], [], None, None, [], 0) }

  function AgentRun(g: Agent, sys: System): (Progress, Signal) { RunFrom(g, Began(sys), 1) }

  /** Every id the store might mint during the run is new to it. */
  ghost predicate MintsFresh(g: Agent, st: Store, i: nat) {
    && (forall k :: i <= k ==> g.minted(k) !in st.approvals)
    && (forall j, k :: i <= j < k ==> g.minted(j) != g.minted(k))
  }

  /** The loop over a live executor; the fields are the run's trajectory and local state. */
  class AgentLoop {
    const agent: Agent
    const executor: E.GuardedExecutor
    var steps: seq<Step>
    var history: seq<Shown>
    var status: Option<Status>
    var resolution: Option<string>
    var asked: nat
    ghost var calls: seq<Call>

    ghost predicate Valid()
      reads this, executor, executor.store.Object()
    {
      && executor.Valid()
      && this as object != executor.store.Object() && this as object != executor.world
      && executor as object != executor.world
      && executor.runId == agent.run && executor.policy == agent.policy && executor.handlers == agent.handlers
    }

    ghost function Model(): Progress
      reads this, executor.store.Object(), executor.world
    {
      Progress(executor.Sys(), steps, history, status, resolution, calls, asked)
    }

    constructor (agent: Agent, executor: E.GuardedExecutor)
      requires executor.Valid() && executor as object != executor.world
      requires executor.runId == agent.run && executor.policy == agent.policy && executor.handlers == agent.handlers
      ensures this.agent == agent && this.executor == executor
      ensures Valid() && Model() == Began(executor.Sys())
    {
      this.agent, this.executor := agent, executor;
      steps, history, status, resolution, asked, calls := [], [], None, None, 0, [];
    }

    method Tell(i: nat, thought: string, tool: string, args: Args, decision: StepDecision, observation: Value)
      requires Valid()
      modifies this`steps, this`history
      ensures Valid() && Model() == Told(old(Model()), i, thought, tool, args, decision, observation)
    {
      steps := steps + [Step(i, thought, Some(tool), Some(args), decision, observation)];
      history := history + [Shown(tool, args, observation)];
    }

    method RunEffect(i: nat, thought: string, tool: string, args: Args, action: Action) returns (signal: Signal)
      requires Valid() && agent.minted(i) !in executor.store.Model().approvals
      modifies this, executor.store.Object(), executor.world
      ensures Valid()
      ensures (Model(), signal) == TakeEffect(agent, old(Model()), i, thought, tool, args, action)
    {
      calls := calls + [EffectCall(agent, action, i)];
      var reply := executor.Execute(action, agent.outcomes(i), agent.minted(i));
      if !reply.Result? { return Raise("effect raised"); }
      status, resolution := Some(reply.status), Some(action.name);
      Tell(i, thought, tool, args, EffectTaken(reply.status), EffectObservation(agent, reply, i));
      return Continue;
    }

    method UseTool(i: nat, thought: string, tool: string, args: Args) returns (signal: Signal)
      requires Valid() && agent.minted(i) !in executor.store.Model().approvals
      modifies this, executor.store.Object(), executor.world
      ensures Valid()
      ensures (Model(), signal) == ToolTurn(agent, old(Model()), i, thought, tool, args)
    {
      if tool !in agent.tools {
        Tell(i, thought, tool, args, RejectedUnknownTool, UnknownTool(tool));
        return Continue;
      }
      var spec := agent.tools[tool];
      var valid := ValidateArgs(spec.params, args);
      if valid.None? {
        Tell(i, thought, tool, args, RejectedInvalidArgs, ErrorValue("invalid_arguments", agent.detail(i)));
        return Continue;
      }
      if spec.Read? {
        var v := spec.handler(i, valid.value);
        if v.None? { return Raise("tool raised"); }
        Tell(i, thought, tool, valid.value, ToolCall, Bound(v.value, 0));
        return Continue;
      }
      var action := spec.build(i, valid.value);
      if action.None? {
        Tell(i, thought, tool, valid.value, RejectedEffectError, ErrorValue("effect_unavailable", agent.detail(i)));
        return Continue;
      }
      signal := RunEffect(i, thought, tool, valid.value, action.value);
    }

    method FollowAnswer(i: nat, response: Response) returns (signal: Signal)
      requires Valid() && agent.minted(i) !in executor.store.Model().approvals
      modifies this, executor.store.Object(), executor.world
      ensures Valid()
      ensures (Model(), signal) == Follow(agent, old(Model()), i, response)
    {
      var choice := ParseDecision(response);
      if choice.None? {
        steps := steps + [Step(i, "", None, None, MalformedOutput, RawText(response.text))];
        return Stop(FailedMalformed);
      }
      match choice.value
      case Final(thought, answer) =>
        steps := steps + [Step(i, thought, None, None, FinalAnswer, Declared(answer))];
        return Stop(FinalOutcome(answer, status, resolution));
      case CallTool(thought, tool, args) =>
        signal := UseTool(i, thought, tool, args);
    }

    method TakeTurn(i: nat) returns (signal: Signal)
      requires Valid() && agent.minted(i) !in executor.store.Model().approvals
      modifies this, executor.store.Object(), executor.world
      ensures Valid()
      ensures (Model(), signal) == Turn(agent, old(Model()), i)
    {
      if agent.late(i) { return Stop(FailedTimeout); }
      var response := agent.llm(i, history);
      asked := asked + 1;
      signal := FollowAnswer(i, response);
    }

    /** Bounded by the iteration count and the deadline; how it ended is the signal. */
    method Run() returns (signal: Signal)
      requires Valid() && Model() == Began(executor.Sys()) && MintsFresh(agent, executor.store.Model(), 1)
      modifies this, executor.store.Object(), executor.world
      ensures Valid()
      ensures (Model(), signal) == AgentRun(agent, old(executor.Sys()))
    {
      var i := 1;
      while i <= agent.maxIterations
        invariant Valid() && 1 <= i <= agent.maxIterations + 1
        invariant MintsFresh(agent, executor.store.Model(), i)
        invariant RunFrom(agent, Model(), i) == AgentRun(agent, old(executor.Sys()))
        decreases agent.maxIterations + 1 - i
      {
        ghost var before := Model();
        signal := TakeTurn(i);
        if !signal.Continue? { return; }
        TurnMintsOne(agent, before, i);
        i := i + 1;
      }
      return Stop(MaxIterations);
    }
  }

  lemma TurnMintsOne(g: Agent, s: Progress, i: nat)
    requires MintsFresh(g, s.sys.store, i)
    ensures MintsFresh(g, Turn(g, s, i).0.sys.store, i + 1)
  {
    var t := Turn(g, s, i).0;
    if t.calls != s.calls {
      var call := t.calls[|s.calls|];
      assert t.sys == CallOn(s.sys, g.policy, call);
      assert call.minted == g.minted(i);
      IdsGrow(s.sys, g.policy, call);
      MintsAtMostOne(s.sys.store, g.policy, call);
      assert t.sys.store.approvals.Keys <= s.sys.store.approvals.Keys + {g.minted(i)};
    }
  }
}
