/** What every agent run keeps: the bound on requests, the history the model is shown, and the match
    between the trajectory and the executor's audit log. */
module AgentRuns {
  import opened Wrappers
  import opened GuardModel
  import opened GuardRuns
  import opened RunViews
  import opened Isolation
  import opened Replay
  import opened AgentTools
  import opened AgentLoop

  // ---------------------------------------------------------------- one executor call, one audit entry

  lemma ReplyIsLastVerdict(q: Answers, p: Policy, run: RunId, registered: set<string>, a: Action, out: Outcome,
                           minted: ApprovalId)
    ensures var cs := ChainCommits(q, p, run, registered, a, out, minted);
            var reply := ChainReply(q, p, registered, a, out, minted);
            match reply
            case Result(status, _, _, _) => cs != [] && cs[|cs| - 1] == Audit(run, a, Verdict(status))
            case Propagated(_) => cs != [] && cs[|cs| - 1] == Audit(run, a, HandlerError)
            case _ => cs == []
  {
  }

  /** What an `execute` call appends to its run's log. */
  function Audited(g: Agent, s: System, call: Call): seq<AuditEntry>
    requires call.Execute?
  {
    match ReplyTo(s.store, g.policy, call)
    case Result(status, _, _, _) => [EntryFor(View(s, call.run), call.run, call.action, Verdict(status))]
    case Propagated(_) => [EntryFor(View(s, call.run), call.run, call.action, HandlerError)]
    case _ => []
  }

  lemma OneEntryOnView(v: RunView, run: RunId, cs: seq<Commit>, a: Action, d: Decision)
    requires cs != [] && cs[|cs| - 1] == Audit(run, a, d) && forall i :: 0 <= i < |cs| - 1 ==> !cs[i].Audit?
    ensures OnViewAll(v, run, cs).log == v.log + [EntryFor(v, run, a, d)]
  {
    LogOfWrites(v, run, cs[..|cs| - 1]);
  }

  /** Writes of which only the last is an audit entry. */
  lemma OneEntryLogged(s: System, cs: seq<Commit>, run: RunId, a: Action, d: Decision)
    requires EnqueuesFresh(s.store, cs) && cs != [] && cs[|cs| - 1] == Audit(run, a, d)
    requires forall i :: 0 <= i < |cs| - 1 ==> !cs[i].Audit?
    ensures Log(ApplyAll(s, cs).store.audit, run) == Log(s.store.audit, run) + [EntryFor(View(s, run), run, a, d)]
  {
    ViewOfApplyAll(s, cs, run);
    OneEntryOnView(View(s, run), run, cs, a, d);
  }

  lemma ExecuteAudits(g: Agent, s: System, call: Call)
    requires call.Execute? && call.minted !in s.store.approvals
    ensures Log(CallOn(s, g.policy, call).store.audit, call.run) == Log(s.store.audit, call.run) + Audited(g, s, call)
  {
    var q, cs := Ask(s.store, call.run, call.action), Commits(s.store, g.policy, call);
    CommitShape(s.store, g.policy, call);
    ReplyIsLastVerdict(q, g.policy, call.run, call.registered, call.action, call.outcome, call.minted);
    ChainEndsWithVerdict(q, g.policy, call.run, call.registered, call.action, call.outcome, call.minted);
    if cs == [] {
      assert Log(s.store.audit, call.run) + [] == Log(s.store.audit, call.run);
    } else {
      OneEntryLogged(s, cs, call.run, call.action, cs[|cs| - 1].decision);
    }
  }

  // ---------------------------------------------------------------- what a trajectory says

  /** The history a trajectory gives rise to: every step that used a tool, in order. */
  function Projected(steps: seq<Step>): seq<Shown> {
    if steps == [] then []
    else
      var last := steps[|steps| - 1];
      Projected(steps[..|steps| - 1])
      + if last.tool.Some? && last.args.Some? then [Shown(last.tool.value, last.args.value, last.observation)] else []
  }

  /** The step is what the model decided when shown `history`, judged by the tools there are, with what the
      model is shown of it. */
  predicate Answers(g: Agent, step: Step, history: seq<Shown>) {
    var response := g.llm(step.index, history);
    match ParseDecision(response)
    case None => step == Step(step.index, "", None, None, MalformedOutput, RawText(response.text))
    case Some(Final(thought, resolution)) =>
      step == Step(step.index, thought, None, None, FinalAnswer, Declared(resolution))
    case Some(CallTool(thought, tool, args)) =>
      && step.thought == thought && step.tool == Some(tool) && step.args == Some(args)
      && if tool !in g.tools then step.decision == RejectedUnknownTool && step.observation == UnknownTool(tool)
         else Judged(g, step, g.tools[tool], args)
  }

  /** What becomes of a request for a tool there is. A handler or builder that raises leaves no step. */
  predicate Judged(g: Agent, step: Step, tool: Tool, args: Args) {
    if Validated(tool.params, args).None? then
      step.decision == RejectedInvalidArgs && step.observation == ErrorValue("invalid_arguments", g.detail(step.index))
    else
      match tool
      case Read(_, handler) =>
        var found := handler(step.index, args);
        step.decision == ToolCall && found.Some? && step.observation == Bound(found.value, 0)
      case Effect(_, build) =>
        if build(step.index, args).None? then
          step.decision == RejectedEffectError
              && step.observation == ErrorValue("effect_unavailable", g.detail(step.index))
        else step.decision.EffectTaken?
  }

  /** The action an effect step handed to the executor. */
  function BuiltAction(g: Agent, step: Step): Option<Action> {
    if step.tool.None? || step.args.None? || step.tool.value !in g.tools || !g.tools[step.tool.value].Effect? then None
    else g.tools[step.tool.value].build(step.index, step.args.value)
  }

  /** Numbered 1, 2, ..., and each step answers the history of the steps before it. */
  ghost predicate Traces(g: Agent, steps: seq<Step>) {
    forall k :: 0 <= k < |steps| ==> steps[k].index == k + 1 && Answers(g, steps[k], Projected(steps[..k]))
  }

  /** Entry by entry, in order: the audit entries are those of the effect steps. */
  predicate Reflects(g: Agent, entries: seq<AuditEntry>, steps: seq<Step>) {
    if steps == [] then entries == []
    else
      var last := steps[|steps| - 1];
      if !last.decision.EffectTaken? then Reflects(g, entries, steps[..|steps| - 1])
      else
        && entries != []
        && Some(entries[|entries| - 1].action) == BuiltAction(g, last)
        && entries[|entries| - 1].decision == Verdict(last.decision.status)
        && entries[|entries| - 1].run == g.run
        && Reflects(g, entries[..|entries| - 1], steps[..|steps| - 1])
  }

  /** Reply by reply, in order: the model is shown of each effect step what the executor replied. */
  predicate ShowsReplies(g: Agent, replies: seq<Reply>, steps: seq<Step>) {
    if steps == [] then replies == []
    else
      var last := steps[|steps| - 1];
      if !last.decision.EffectTaken? then ShowsReplies(g, replies, steps[..|steps| - 1])
      else
        && replies != []
        && ShowsReply(g, replies[|replies| - 1], last)
        && ShowsReplies(g, replies[..|replies| - 1], steps[..|steps| - 1])
  }

  predicate ShowsReply(g: Agent, reply: Reply, step: Step) {
    && reply.Result? && step.decision == EffectTaken(reply.status)
    && step.observation == EffectObservation(g, reply, step.index)
  }

  /** The last effect taken: its status and action name. */
  function LastEffect(g: Agent, steps: seq<Step>): Option<(Status, string)> {
    if steps == [] then None
    else
      var last := steps[|steps| - 1];
      if last.decision.EffectTaken? && BuiltAction(g, last).Some? then
        Some((last.decision.status, BuiltAction(g, last).value.name))
      else LastEffect(g, steps[..|steps| - 1])
  }

  // ---------------------------------------------------------------- the invariant

  /** What the agent's run has been audited for since `start`. */
  function Since(g: Agent, start: System, s: System): seq<AuditEntry> {
    var before, now := Log(start.store.audit, g.run), Log(s.store.audit, g.run);
    if before <= now then now[|before|..] else []
  }

  ghost predicate Grown(g: Agent, start: System, s: System) {
    Log(start.store.audit, g.run) <= Log(s.store.audit, g.run)
  }

  /** The last effect step's status and action are what the run reports. */
  predicate Reports(g: Agent, s: Progress) {
    match LastEffect(g, s.steps)
    case None => s.status == None && s.resolution == None
    case Some((status, name)) => s.status == Some(status) && s.resolution == Some(name)
  }

  /** Every executor call is an `execute` on the agent's own run of an action one of its tools built. */
  ghost predicate OwnCalls(g: Agent, calls: seq<Call>) {
    forall k :: 0 <= k < |calls| ==> IsOwn(g, calls[k])
  }

  ghost predicate IsOwn(g: Agent, call: Call) {
    && call.Execute? && call.run == g.run && call.registered == g.handlers && IsBuilt(g, call.action)
    && exists i :: CalledAt(g, call, i)
  }

  ghost predicate IsBuilt(g: Agent, a: Action) {
    exists name, i, args :: BuiltAt(g, a, name, i, args)
  }

  predicate BuiltAt(g: Agent, a: Action, name: string, i: nat, args: Args) {
    name in g.tools && g.tools[name].Effect? && g.tools[name].build(i, args) == Some(a)
  }

  /** The action was built at that moment, and the call meets what the handler does and may mint what is new then. */
  ghost predicate CalledAt(g: Agent, call: Call, i: nat)
    requires call.Execute?
  {
    && call.outcome == g.outcomes(i) && call.minted == g.minted(i)
    && exists name, args :: BuiltAt(g, call.action, name, i, args)
  }

  /** The world is what the run's executor calls made of it. */
  ghost predicate Called(g: Agent, start: System, s: Progress) {
    s.sys == RunAll(start, g.policy, s.calls) && FreshIds(start, g.policy, s.calls) && OwnCalls(g, s.calls)
  }

  ghost predicate Recorded(g: Agent, start: System, s: Progress) {
    && Traces(g, s.steps)
    && Called(g, start, s)
    && Grown(g, start, s.sys)
    && Reflects(g, Since(g, start, s.sys), s.steps)
    && ShowsReplies(g, Replies(start, g.policy, s.calls), s.steps)
    && Reports(g, s)
  }

  /** Between iterations. */
  ghost predicate Going(g: Agent, start: System, s: Progress, i: nat) {
    Recorded(g, start, s) && i == s.asked + 1 && |s.steps| == s.asked && s.history == Projected(s.steps)
  }

  /** After an exception: the same, but for one call more if it was the executor that raised, and one error
      entry more if it was a handler. */
  ghost predicate BrokenOff(g: Agent, start: System, s: Progress) {
    && Traces(g, s.steps)
    && Called(g, start, s)
    && Grown(g, start, s.sys)
    && ReflectsBroken(g, Since(g, start, s.sys), s.steps)
    && ShowsBroken(g, Replies(start, g.policy, s.calls), s.steps)
    && s.asked == |s.steps| + 1
  }

  ghost predicate ReflectsBroken(g: Agent, since: seq<AuditEntry>, steps: seq<Step>) {
    || Reflects(g, since, steps)
    || (since != [] && since[|since| - 1].decision == HandlerError && Reflects(g, since[..|since| - 1], steps))
  }

  ghost predicate ShowsBroken(g: Agent, replies: seq<Reply>, steps: seq<Step>) {
    || ShowsReplies(g, replies, steps)
    || (replies != [] && !replies[|replies| - 1].Result? && ShowsReplies(g, replies[..|replies| - 1], steps))
  }

  lemma ErrorBreaks(g: Agent, since: seq<AuditEntry>, added: seq<AuditEntry>, steps: seq<Step>)
    requires Reflects(g, since, steps) && (added == [] || (|added| == 1 && added[0].decision == HandlerError))
    ensures ReflectsBroken(g, since + added, steps)
  {
    if added == [] { assert since + added == since; } else { assert (since + added)[..|since|] == since; }
  }

  lemma RaiseBreaks(g: Agent, replies: seq<Reply>, reply: Reply, steps: seq<Step>)
    requires ShowsReplies(g, replies, steps) && !reply.Result?
    ensures ShowsBroken(g, replies + [reply], steps)
  {
    assert (replies + [reply])[..|replies|] == replies;
  }

  lemma ProjectedSnoc(steps: seq<Step>, step: Step)
    ensures Projected(steps + [step]) == Projected(steps)
              + if step.tool.Some? && step.args.Some? then [Shown(step.tool.value, step.args.value, step.observation)]
                else []
  {
    assert (steps + [step])[..|steps|] == steps;
  }

  lemma TracesSnoc(g: Agent, steps: seq<Step>, step: Step)
    requires Traces(g, steps) && step.index == |steps| + 1 && Answers(g, step, Projected(steps))
    ensures Traces(g, steps + [step])
  {
    var more := steps + [step];
    forall k | 0 <= k < |more|
      ensures more[k].index == k + 1 && Answers(g, more[k], Projected(more[..k]))
    {
      assert more[..k] == steps[..k];
      if k == |steps| { assert steps[..k] == steps; }
    }
  }

  /** A step without effect leaves world and audit alone. */
  lemma QuietStep(g: Agent, start: System, s: Progress, step: Step, i: nat)
    requires Going(g, start, s, i) && step.index == i && !step.decision.EffectTaken? && Answers(g, step, s.history)
    ensures Recorded(g, start, s.(steps := s.steps + [step]))
  {
    TracesSnoc(g, s.steps, step);
    assert (s.steps + [step])[..|s.steps|] == s.steps;
  }

  lemma ReflectsSnoc(g: Agent, entries: seq<AuditEntry>, steps: seq<Step>, e: AuditEntry, step: Step)
    requires Reflects(g, entries, steps) && step.decision.EffectTaken? && BuiltAction(g, step) == Some(e.action)
    requires e.decision == Verdict(step.decision.status) && e.run == g.run
    ensures Reflects(g, entries + [e], steps + [step])
  {
    assert (steps + [step])[..|steps|] == steps;
    assert (entries + [e])[..|entries|] == entries;
  }

  lemma ShowsSnoc(g: Agent, replies: seq<Reply>, steps: seq<Step>, reply: Reply, step: Step)
    requires ShowsReplies(g, replies, steps) && ShowsReply(g, reply, step)
    ensures ShowsReplies(g, replies + [reply], steps + [step])
  {
    assert (steps + [step])[..|steps|] == steps;
    assert (replies + [reply])[..|replies|] == replies;
  }

  /** The call's reply comes after those before it. */
  ghost predicate Answered(g: Agent, start: System, s: Progress, call: Call) {
    Replies(start, g.policy, s.calls + [call])
        == Replies(start, g.policy, s.calls) + [ReplyTo(s.sys.store, g.policy, call)]
  }

  lemma CallExtends(g: Agent, start: System, s: Progress, call: Call)
    requires Called(g, start, s) && Fresh(s.sys.store, call)
    requires IsOwn(g, call)
    ensures Called(g, start, s.(sys := CallOn(s.sys, g.policy, call), calls := s.calls + [call]))
    ensures Answered(g, start, s, call)
  {
    RunSnoc(start, g.policy, s.calls, call);
  }

  lemma CallGrows(g: Agent, start: System, s: System, call: Call)
    requires Grown(g, start, s) && call.Execute? && call.run == g.run && call.minted !in s.store.approvals
    ensures Grown(g, start, CallOn(s, g.policy, call))
    ensures Since(g, start, CallOn(s, g.policy, call)) == Since(g, start, s) + Audited(g, s, call)
  {
    ExecuteAudits(g, s, call);
    var before, now := Log(start.store.audit, g.run), Log(s.store.audit, g.run);
    assert (now + Audited(g, s, call))[|before|..] == now[|before|..] + Audited(g, s, call);
  }

  /** What one iteration leaves behind. */
  ghost predicate After(g: Agent, start: System, t: Progress, signal: Signal, i: nat) {
    match signal
    case Continue => Going(g, start, t, i + 1)
    case Stop(_) => Recorded(g, start, t) && t.asked == |t.steps| <= i
    case Raise(_) => BrokenOff(g, start, t) && t.asked <= i
  }

  lemma EffectKeeps(g: Agent, start: System, s: Progress, t: Progress, i: nat, thought: string, tool: string,
                    args: Args, action: Action)
    requires Going(g, start, s, i) && t == s.(asked := s.asked + 1) && g.minted(i) !in s.sys.store.approvals
    requires ParseDecision(g.llm(i, s.history)) == Some(CallTool(thought, tool, args))
    requires tool in g.tools && g.tools[tool].Effect? && Validated(g.tools[tool].params, args).Some?
    requires g.tools[tool].build(i, args) == Some(action)
    ensures var (end, signal) := TakeEffect(g, t, i, thought, tool, args, action); After(g, start, end, signal, i)
  {
    var call := EffectCall(g, action, i);
    assert BuiltAt(g, action, tool, i, args);
    assert CalledAt(g, call, i);
    CallExtends(g, start, s, call);
    CallGrows(g, start, s.sys, call);
    if ReplyTo(s.sys.store, g.policy, call).Result? {
      EffectDone(g, start, s, i, thought, tool, args, action);
    } else {
      EffectRaised(g, start, s, call);
    }
  }

  lemma EffectDone(g: Agent, start: System, s: Progress, i: nat, thought: string, tool: string, args: Args,
                   action: Action)
    requires Going(g, start, s, i) && tool in g.tools && g.tools[tool].Effect?
        && g.tools[tool].build(i, args) == Some(action)
    requires ParseDecision(g.llm(i, s.history)) == Some(CallTool(thought, tool, args))
        && Validated(g.tools[tool].params, args).Some?
    requires var call := EffectCall(g, action, i);
             var sys := CallOn(s.sys, g.policy, call);
             && ReplyTo(s.sys.store, g.policy, call).Result?
             && Called(g, start, s.(sys := sys, calls := s.calls + [call]))
             && Answered(g, start, s, call)
             && Grown(g, start, sys) && Since(g, start, sys) == Since(g, start, s.sys) + Audited(g, s.sys, call)
    ensures var (end, signal) := TakeEffect(g, s.(asked := s.asked + 1), i, thought, tool, args, action);
            signal.Continue? && Going(g, start, end, i + 1)
  {
    var call := EffectCall(g, action, i);
    var reply := ReplyTo(s.sys.store, g.policy, call);
    var step := Step(i, thought, Some(tool), Some(args), EffectTaken(reply.status), EffectObservation(g, reply, i));
    EffectRecorded(g, start, s, step, Audited(g, s.sys, call)[0], call);
  }

  lemma EffectRaised(g: Agent, start: System, s: Progress, call: Call)
    requires Going(g, start, s, s.asked + 1) && call.Execute? && !ReplyTo(s.sys.store, g.policy, call).Result?
    requires var sys := CallOn(s.sys, g.policy, call);
             && Called(g, start, s.(sys := sys, calls := s.calls + [call]))
             && Answered(g, start, s, call)
             && Grown(g, start, sys) && Since(g, start, sys) == Since(g, start, s.sys) + Audited(g, s.sys, call)
    ensures BrokenOff(g, start, s.(sys := CallOn(s.sys, g.policy, call), calls := s.calls + [call],
        asked := s.asked + 1))
  {
    ErrorBreaks(g, Since(g, start, s.sys), Audited(g, s.sys, call), s.steps);
    RaiseBreaks(g, Replies(start, g.policy, s.calls), ReplyTo(s.sys.store, g.policy, call), s.steps);
  }

  lemma EffectRecorded(g: Agent, start: System, s: Progress, step: Step, e: AuditEntry, call: Call)
    requires Going(g, start, s, step.index) && Answers(g, step, s.history)
    requires step.tool.Some? && step.args.Some? && step.decision.EffectTaken?
    requires BuiltAction(g, step) == Some(e.action) && e.decision == Verdict(step.decision.status) && e.run == g.run
    requires var sys := CallOn(s.sys, g.policy, call);
             && Called(g, start, s.(sys := sys, calls := s.calls + [call]))
             && Answered(g, start, s, call) && ShowsReply(g, ReplyTo(s.sys.store, g.policy, call), step)
             && Grown(g, start, sys) && Since(g, start, sys) == Since(g, start, s.sys) + [e]
    ensures Going(g, start,
                  s.(sys := CallOn(s.sys, g.policy, call), calls := s.calls + [call], asked := s.asked + 1,
                     status := Some(step.decision.status), resolution := Some(e.action.name),
                     steps := s.steps + [step],
                     history := s.history + [Shown(step.tool.value, step.args.value, step.observation)]),
                  step.index + 1)
  {
    ReflectsSnoc(g, Since(g, start, s.sys), s.steps, e, step);
    ShowsSnoc(g, Replies(start, g.policy, s.calls), s.steps, ReplyTo(s.sys.store, g.policy, call), step);
    TracesSnoc(g, s.steps, step);
    ProjectedSnoc(s.steps, step);
  }

  predicate TakesEffect(g: Agent, i: nat, tool: string, args: Args) {
    && tool in g.tools && Validated(g.tools[tool].params, args).Some?
    && g.tools[tool].Effect? && g.tools[tool].build(i, args).Some?
  }

  /** A tool turn without an effect raises or leaves one step, and nothing else. */
  lemma QuietToolShape(g: Agent, t: Progress, i: nat, thought: string, tool: string, args: Args) returns (step: Step)
    requires !TakesEffect(g, i, tool, args)
    ensures step.index == i && step.thought == thought && step.tool == Some(tool) && step.args == Some(args)
    ensures var (end, signal) := ToolTurn(g, t, i, thought, tool, args);
            if signal.Continue? then
              && end == t.(steps := t.steps + [step], history := t.history + [Shown(tool, args, step.observation)])
              && (if tool !in g.tools then step.decision == RejectedUnknownTool && step.observation == UnknownTool(tool)
                  else Judged(g, step, g.tools[tool], args))
              && !step.decision.EffectTaken?
            else signal.Raise? && end == t
  {
    var (end, signal) := ToolTurn(g, t, i, thought, tool, args);
    if signal.Continue? { step := end.steps[|t.steps|]; }
    else { step := Step(i, thought, Some(tool), Some(args), ToolCall, Nothing); }
  }

  lemma QuietToldKeeps(g: Agent, start: System, s: Progress, step: Step)
    requires Going(g, start, s, step.index) && Answers(g, step, s.history) && !step.decision.EffectTaken?
    requires step.tool.Some? && step.args.Some?
    ensures Going(g, start,
                  s.(asked := s.asked + 1, steps := s.steps + [step],
                     history := s.history + [Shown(step.tool.value, step.args.value, step.observation)]),
                         step.index + 1)
  {
    QuietStep(g, start, s, step, step.index);
    ProjectedSnoc(s.steps, step);
  }

  lemma QuietToolKeeps(g: Agent, start: System, s: Progress, t: Progress, i: nat, thought: string, tool: string,
                       args: Args)
    requires Going(g, start, s, i) && t == s.(asked := s.asked + 1)
    requires ParseDecision(g.llm(i, s.history)) == Some(CallTool(thought, tool, args)) && !TakesEffect(g, i, tool, args)
    ensures var (end, signal) := ToolTurn(g, t, i, thought, tool, args); After(g, start, end, signal, i)
  {
    var step := QuietToolShape(g, t, i, thought, tool, args);
    if ToolTurn(g, t, i, thought, tool, args).1.Continue? { QuietToldKeeps(g, start, s, step); }
  }

  lemma ToolKeeps(g: Agent, start: System, s: Progress, t: Progress, i: nat, thought: string, tool: string, args: Args)
    requires Going(g, start, s, i) && t == s.(asked := s.asked + 1) && g.minted(i) !in s.sys.store.approvals
    requires ParseDecision(g.llm(i, s.history)) == Some(CallTool(thought, tool, args))
    ensures var (end, signal) := ToolTurn(g, t, i, thought, tool, args); After(g, start, end, signal, i)
  {
    if TakesEffect(g, i, tool, args) {
      EffectKeeps(g, start, s, t, i, thought, tool, args, g.tools[tool].build(i, args).value);
    } else {
      QuietToolKeeps(g, start, s, t, i, thought, tool, args);
    }
  }

  lemma TurnKeeps(g: Agent, start: System, s: Progress, i: nat)
    requires Going(g, start, s, i) && g.minted(i) !in s.sys.store.approvals
    ensures var (t, signal) := Turn(g, s, i); After(g, start, t, signal, i)
  {
    var (t, signal) := Turn(g, s, i);
    if !g.late(i) {
      var choice := ParseDecision(g.llm(i, s.history));
      if choice.Some? && choice.value.CallTool? {
        ToolKeeps(g, start, s, s.(asked := s.asked + 1), i, choice.value.thought, choice.value.tool, choice.value.args);
      } else {
        QuietStep(g, start, s, t.steps[|s.steps|], i);
      }
    }
  }

  lemma {:induction false} RunKeeps(g: Agent, start: System, s: Progress, i: nat)
    requires Going(g, start, s, i) && i <= g.maxIterations + 1 && MintsFresh(g, s.sys.store, i)
    ensures var (t, signal) := RunFrom(g, s, i); !signal.Continue? && After(g, start, t, signal, g.maxIterations)
    decreases g.maxIterations + 1 - i
  {
    if i <= g.maxIterations {
      var (t, signal) := Turn(g, s, i);
      TurnKeeps(g, start, s, i);
      if signal.Continue? {
        TurnMintsOne(g, s, i);
        RunKeeps(g, start, t, i + 1);
      }
    }
  }

  /** Every run, whatever the model answers. It makes at most `maxIterations` requests; when it returns, there
      is one step per request, numbered from 1, each the answer to the projection of the steps before it; the
      entries audited during the run are, one to one and in order, those of the effect steps; and the last
      effect decides the status and action reported. A run that raises has one request more than steps, and
      at most one error entry more than effect steps. */
  lemma TrajectoryMatchesAudit(g: Agent, start: System)
    requires MintsFresh(g, start.store, 1)
    ensures var (t, signal) := AgentRun(g, start);
            && t.asked <= g.maxIterations
            && (signal.Stop? ==> Recorded(g, start, t) && |t.steps| == t.asked)
            && (signal.Raise? ==> BrokenOff(g, start, t))
            && !signal.Continue?
  {
    var log := Log(start.store.audit, g.run);
    assert log[|log|..] == [];
    assert Going(g, start, Began(start), 1);
    RunKeeps(g, start, Began(start), 1);
  }

  lemma AgentMakesOwnCalls(g: Agent, start: System)
    requires MintsFresh(g, start.store, 1)
    ensures OwnCalls(g, AgentRun(g, start).0.calls)
  {
    TrajectoryMatchesAudit(g, start);
  }

  // ---------------------------------------------------------------- what the trajectory claims is what happened

  /** The actions a trajectory says were executed, in order. */
  function ExecutedOf(g: Agent, steps: seq<Step>): seq<Action> {
    if steps == [] then []
    else
      var last := steps[|steps| - 1];
      ExecutedOf(g, steps[..|steps| - 1])
      + if last.decision == EffectTaken(Executed) && BuiltAction(g, last).Some? then [BuiltAction(g, last).value]
        else []
  }

  lemma {:induction false} ReflectedExecutions(g: Agent, entries: seq<AuditEntry>, steps: seq<Step>)
    requires Reflects(g, entries, steps)
    ensures ExecutedActions(entries) == ExecutedOf(g, steps)
  {
    if steps != [] {
      var init, last := steps[..|steps| - 1], steps[|steps| - 1];
      ReflectedExecutions(g, if last.decision.EffectTaken? then entries[..|entries| - 1] else entries, init);
    }
  }

  lemma {:induction false} ExecutedConcat(a: seq<AuditEntry>, b: seq<AuditEntry>)
    ensures ExecutedActions(a + b) == ExecutedActions(a) + ExecutedActions(b)
    decreases |b|
  {
    if b == [] {
      assert a + b == a;
    } else {
      assert (a + b)[..|a + b| - 1] == a + b[..|b| - 1];
      ExecutedConcat(a, b[..|b| - 1]);
    }
  }

  lemma SinceExecutions(g: Agent, start: System, t: Progress)
    requires Recorded(g, start, t) || BrokenOff(g, start, t)
    ensures ExecutedActions(Since(g, start, t.sys)) == ExecutedOf(g, t.steps)
  {
    var since := Since(g, start, t.sys);
    if Reflects(g, since, t.steps) {
      ReflectedExecutions(g, since, t.steps);
    } else {
      ReflectedExecutions(g, since[..|since| - 1], t.steps);
    }
  }

  lemma EffectsAreExecutions(p: Policy, calls: seq<Call>, run: RunId)
    requires FreshIds(START, p, calls)
    ensures EffectsOf(RunAll(START, p, calls).effects, run)
        == ExecutedActions(Log(RunAll(START, p, calls).store.audit, run))
  {
    ReachableIsSound(p, calls, run);
  }

  lemma EffectsSince(g: Agent, earlier: seq<Call>, t: Progress)
    requires FreshIds(START, g.policy, earlier)
    requires Called(g, RunAll(START, g.policy, earlier), t) && Grown(g, RunAll(START, g.policy, earlier), t.sys)
    ensures var start := RunAll(START, g.policy, earlier);
            EffectsOf(t.sys.effects, g.run) == EffectsOf(start.effects, g.run) + ExecutedActions(Since(g, start, t.sys))
  {
    var start := RunAll(START, g.policy, earlier);
    RunsConcat(START, g.policy, earlier, t.calls, earlier + t.calls);
    EffectsAreExecutions(g.policy, earlier, g.run);
    EffectsAreExecutions(g.policy, earlier + t.calls, g.run);
    ExecutionsSince(g, start, t.sys);
  }

  lemma ExecutionsSince(g: Agent, start: System, s: System)
    requires Grown(g, start, s)
    ensures ExecutedActions(Log(s.store.audit, g.run)) ==
            ExecutedActions(Log(start.store.audit, g.run)) + ExecutedActions(Since(g, start, s))
  {
    var before, since := Log(start.store.audit, g.run), Since(g, start, s);
    assert Log(s.store.audit, g.run) == before + since;
    ExecutedConcat(before, since);
  }

  /** From any reachable world, and however the run ends: the effects its run sees are exactly those seen
      before and the ones the trajectory says were executed, in that order. */
  lemma TrajectoryTellsTheTruth(g: Agent, earlier: seq<Call>)
    requires FreshIds(START, g.policy, earlier) && MintsFresh(g, RunAll(START, g.policy, earlier).store, 1)
    ensures var start := RunAll(START, g.policy, earlier);
            var (t, _) := AgentRun(g, start);
            EffectsOf(t.sys.effects, g.run) == EffectsOf(start.effects, g.run) + ExecutedOf(g, t.steps)
  {
    var start := RunAll(START, g.policy, earlier);
    var (t, _) := AgentRun(g, start);
    TrajectoryMatchesAudit(g, start);
    SinceExecutions(g, start, t);
    EffectsSince(g, earlier, t);
  }

  // ---------------------------------------------------------------- the outcome

  lemma {:induction false} LastEffectIsLastEntry(g: Agent, entries: seq<AuditEntry>, steps: seq<Step>)
    requires Reflects(g, entries, steps)
    ensures LastEffect(g, steps) ==
            if entries == [] then None
            else match entries[|entries| - 1].decision
                 case Verdict(status) => Some((status, entries[|entries| - 1].action.name))
                 case HandlerError => None
    ensures forall i :: 0 <= i < |entries| ==> entries[i].decision.Verdict?
  {
    if steps != [] {
      var init, last := steps[..|steps| - 1], steps[|steps| - 1];
      LastEffectIsLastEntry(g, if last.decision.EffectTaken? then entries[..|entries| - 1] else entries, init);
    }
  }

  predicate EndsFinal(steps: seq<Step>) { steps != [] && steps[|steps| - 1].decision == FinalAnswer }

  /** A run has an outcome of its own exactly if the model finished it; the others were broken off. */
  predicate BrokenOffBy(outcome: AgentOutcome) { outcome in {MaxIterations, FailedTimeout, FailedMalformed} }

  ghost predicate FinalIsJudged(t: Progress, signal: Signal) {
    signal.Stop? ==>
      && (EndsFinal(t.steps) <==> !BrokenOffBy(signal.outcome))
      && (EndsFinal(t.steps) ==>
            exists answer ::
              && t.steps[|t.steps| - 1].observation == Declared(answer)
              && signal.outcome == FinalOutcome(answer, t.status, t.resolution))
  }

  lemma {:induction false} FinalsAreJudged(g: Agent, s: Progress, i: nat)
    requires !EndsFinal(s.steps)
    ensures var (t, signal) := RunFrom(g, s, i); FinalIsJudged(t, signal)
    decreases g.maxIterations + 1 - i
  {
    if i <= g.maxIterations {
      var (t, signal) := Turn(g, s, i);
      if signal.Continue? {
        NoFinalYet(g, s, i);
        FinalsAreJudged(g, t, i + 1);
      } else {
        TurnIsJudged(g, s, i);
      }
    }
  }

  /** A turn the run goes on from does not end with a final answer. */
  lemma NoFinalYet(g: Agent, s: Progress, i: nat)
    requires !EndsFinal(s.steps)
    ensures var (t, signal) := Turn(g, s, i); signal.Continue? ==> !EndsFinal(t.steps)
  {
  }

  lemma TurnIsJudged(g: Agent, s: Progress, i: nat)
    requires !EndsFinal(s.steps)
    ensures var (t, signal) := Turn(g, s, i); FinalIsJudged(t, signal)
  {
    if !g.late(i) {
      var choice := ParseDecision(g.llm(i, s.history));
      if choice.Some? && choice.value.Final? {
        var (t, signal) := Turn(g, s, i);
        assert t.steps[|t.steps| - 1].observation == Declared(choice.value.resolution);
        assert signal.outcome == FinalOutcome(choice.value.resolution, t.status, t.resolution);
      }
    }
  }

  // ---------------------------------------------------------------- how a run is broken off

  predicate EndsMalformed(steps: seq<Step>) { steps != [] && steps[|steps| - 1].decision == MalformedOutput }

  predicate InTime(g: Agent, n: nat) { forall k :: 1 <= k <= n ==> !g.late(k) }

  /** What ended the run, told from its last step, the requests made and the clock. */
  predicate EndedAs(g: Agent, t: Progress, outcome: AgentOutcome) {
    && (outcome == FailedMalformed <==> EndsMalformed(t.steps))
    && (outcome == MaxIterations <==> t.asked == g.maxIterations && !EndsMalformed(t.steps) && !EndsFinal(t.steps))
    && (outcome == FailedTimeout <==>
          t.asked < g.maxIterations && g.late(t.asked + 1) && !EndsMalformed(t.steps) && !EndsFinal(t.steps))
  }

  lemma ToolTurnGoesOn(g: Agent, s: Progress, i: nat, thought: string, tool: string, args: Args)
    ensures var (t, signal) := ToolTurn(g, s, i, thought, tool, args);
            && !signal.Stop? && t.asked == s.asked
            && (signal.Continue? ==> !EndsMalformed(t.steps) && !EndsFinal(t.steps))
  {
  }

  lemma FollowEnds(g: Agent, s: Progress, i: nat, response: Response)
    ensures var (t, signal) := Follow(g, s, i, response);
            && t.asked == s.asked
            && (signal.Continue? ==> !EndsMalformed(t.steps) && !EndsFinal(t.steps))
            && (signal.Stop? ==>
                  && (EndsMalformed(t.steps) <==> signal.outcome == FailedMalformed)
                  && (EndsFinal(t.steps) <==> !EndsMalformed(t.steps))
                       && signal.outcome !in {MaxIterations, FailedTimeout})
  {
    var choice := ParseDecision(response);
    if choice.Some? && choice.value.CallTool? {
      ToolTurnGoesOn(g, s, i, choice.value.thought, choice.value.tool, choice.value.args);
    }
  }

  lemma TurnEnds(g: Agent, s: Progress, i: nat)
    requires i == s.asked + 1 && i <= g.maxIterations && InTime(g, s.asked)
    requires !EndsMalformed(s.steps) && !EndsFinal(s.steps)
    ensures var (t, signal) := Turn(g, s, i);
            && InTime(g, t.asked)
            && (signal.Continue? ==> t.asked == i && !EndsMalformed(t.steps) && !EndsFinal(t.steps))
            && (signal.Stop? ==> EndedAs(g, t, signal.outcome))
  {
    if !g.late(i) { FollowEnds(g, s.(asked := i), i, g.llm(i, s.history)); }
  }

  lemma {:induction false} RunEnds(g: Agent, s: Progress, i: nat)
    requires i == s.asked + 1 && i <= g.maxIterations + 1 && InTime(g, s.asked)
    requires !EndsMalformed(s.steps) && !EndsFinal(s.steps)
    ensures var (t, signal) := RunFrom(g, s, i); InTime(g, t.asked) && (signal.Stop? ==> EndedAs(g, t, signal.outcome))
    decreases g.maxIterations + 1 - i
  {
    if i <= g.maxIterations {
      var (t, signal) := Turn(g, s, i);
      TurnEnds(g, s, i);
      if signal.Continue? { RunEnds(g, t, i + 1); }
    }
  }

  /** The last request asked for a tool that raised: a read whose handler did, or an effect whose call the
      executor did not answer. */
  ghost predicate EndedByRaise(g: Agent, start: System, t: Progress) {
    var choice := ParseDecision(g.llm(t.asked, Projected(t.steps)));
    && t.asked == |t.steps| + 1
    && choice.Some? && choice.value.CallTool? && choice.value.tool in g.tools
    && Validated(g.tools[choice.value.tool].params, choice.value.args).Some?
    && ToolRaised(g, start, t, g.tools[choice.value.tool], choice.value.args)
  }

  ghost predicate ToolRaised(g: Agent, start: System, t: Progress, tool: Tool, args: Args) {
    match tool
    case Read(_, handler) => handler(t.asked, args).None?
    case Effect(_, build) =>
      var action, replies := build(t.asked, args), Replies(start, g.policy, t.calls);
      && action.Some? && t.calls != [] && t.calls[|t.calls| - 1] == EffectCall(g, action.value, t.asked)
      && replies != [] && !replies[|replies| - 1].Result?
  }

  lemma TurnRaises(g: Agent, start: System, s: Progress, i: nat)
    requires Going(g, start, s, i) && Turn(g, s, i).1.Raise?
    ensures EndedByRaise(g, start, Turn(g, s, i).0)
  {
    var choice := ParseDecision(g.llm(i, s.history)).value;
    if TakesEffect(g, i, choice.tool, choice.args) {
      RunSnoc(start, g.policy, s.calls, EffectCall(g, g.tools[choice.tool].build(i, choice.args).value, i));
    }
  }

  lemma {:induction false} RunRaises(g: Agent, start: System, s: Progress, i: nat)
    requires Going(g, start, s, i) && i <= g.maxIterations + 1 && MintsFresh(g, s.sys.store, i)
    ensures var (t, signal) := RunFrom(g, s, i); signal.Raise? ==> EndedByRaise(g, start, t)
    decreases g.maxIterations + 1 - i
  {
    if i <= g.maxIterations {
      var (t, signal) := Turn(g, s, i);
      if signal.Continue? {
        TurnKeeps(g, start, s, i);
        TurnMintsOne(g, s, i);
        RunRaises(g, start, t, i + 1);
      } else if signal.Raise? {
        TurnRaises(g, start, s, i);
      }
    }
  }

  lemma RaisesExactly(g: Agent, start: System)
    requires MintsFresh(g, start.store, 1)
    ensures AgentRun(g, start).1.Raise? <==> EndedByRaise(g, start, AgentRun(g, start).0)
  {
    var log := Log(start.store.audit, g.run);
    assert log[|log|..] == [];
    RunRaises(g, start, Began(start), 1);
    TrajectoryMatchesAudit(g, start);
    if AgentRun(g, start).1.Stop? { assert AgentRun(g, start).0.asked == |AgentRun(g, start).0.steps|; }
  }

  /** How every run ends, told from its trajectory, its requests and the clock. No request is made past the
      deadline. A run raises exactly if the tool it asked for last did. One that stops is malformed exactly if
      its last step is; it has run out of iterations exactly if it made as many requests as it may without an
      end, and out of time exactly if it made fewer and was late for the next. */
  lemma RunEndsExactly(g: Agent, start: System)
    requires MintsFresh(g, start.store, 1)
    ensures var (t, signal) := AgentRun(g, start);
            && InTime(g, t.asked)
            && (signal.Raise? <==> EndedByRaise(g, start, t))
            && (signal.Stop? ==> EndedAs(g, t, signal.outcome))
  {
    RunEnds(g, Began(start), 1);
    RaisesExactly(g, start);
  }

  // ---------------------------------------------------------------- what a finished run is reported as

  /** What the executor's last verdict during the run makes of it, and, where there is none or its action has
      no name, what the model declared. */
  function Verdicted(since: seq<AuditEntry>, declared: Value): AgentOutcome {
    var last := if since == [] then None else Some(since[|since| - 1]);
    if last.Some? && last.value.decision == Verdict(PendingApproval) then AwaitingApproval
    else if last.Some? && last.value.decision in {Verdict(RejectedActionBudget), Verdict(RejectedSpendCap),
        Verdict(RejectedBreakerOpen)}
    then RejectedByGuard
    else if last.Some? && last.value.action.name != "" then
      if last.value.action.name == "escalate_to_human" then Escalated else Resolved
    else if declared == Declared(Some("escalate_to_human")) then Escalated else Resolved
  }

  /** A run the model finishes is reported by what the executor last said of it, not by what the model claims:
      as awaiting approval exactly if the last entry audited during the run is pending, as rejected exactly if
      it is one of the three rejections, and otherwise, as resolved or escalated by the action of that entry,
      which was executed or a duplicate. Only a run without any entry is reported on the model's word. */
  lemma OutcomeIsTheLastVerdict(g: Agent, start: System)
    requires MintsFresh(g, start.store, 1)
    ensures var (t, signal) := AgentRun(g, start);
            var since := Since(g, start, t.sys);
            signal.Stop? ==>
              && (EndsFinal(t.steps) <==> !BrokenOffBy(signal.outcome))
              && (EndsFinal(t.steps) ==> signal.outcome == Verdicted(since, t.steps[|t.steps| - 1].observation))
              && (signal.outcome in {Resolved, Escalated} <==>
                    EndsFinal(t.steps)
                    && (since == [] || since[|since| - 1].decision in {Verdict(Executed), Verdict(Duplicate)}))
  {
    var (t, signal) := AgentRun(g, start);
    TrajectoryMatchesAudit(g, start);
    FinalsAreJudged(g, Began(start), 1);
    if signal.Stop? && EndsFinal(t.steps) {
      var answer :| t.steps[|t.steps| - 1].observation == Declared(answer)
                    && signal.outcome == FinalOutcome(answer, t.status, t.resolution);
      JudgedByLast(g, t, Since(g, start, t.sys), answer);
    }
  }

  lemma DeclaredTellsApart(a: Option<string>, b: Option<string>)
    ensures Declared(a) == Declared(b) <==> a == b
  {
    assert Declared(a).entries[0].value == Declared(b).entries[0].value <==> a == b;
  }

  lemma JudgedByLast(g: Agent, t: Progress, since: seq<AuditEntry>, answer: Option<string>)
    requires Reflects(g, since, t.steps) && Reports(g, t)
    ensures FinalOutcome(answer, t.status, t.resolution) == Verdicted(since, Declared(answer))
    ensures FinalOutcome(answer, t.status, t.resolution) in {Resolved, Escalated} <==>
              since == [] || since[|since| - 1].decision in {Verdict(Executed), Verdict(Duplicate)}
  {
    LastEffectIsLastEntry(g, since, t.steps);
    DeclaredTellsApart(answer, Some("escalate_to_human"));
    if since != [] {
      assert since[|since| - 1].decision == Verdict(t.status.value);
      var status := t.status.value;
      assert status.Executed? || status.Duplicate? || status.PendingApproval? || status.RejectedActionBudget?
             || status.RejectedSpendCap? || status.RejectedBreakerOpen?;
    }
  }
}
