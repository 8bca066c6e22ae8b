/** Distillation changes who decides a case but never what is decided. */
module Meaning {
  import opened Wrappers
  import opened Rules
  import opened Situations
  import opened PaymentRules
  import opened Lifecycle
  import opened RuleStore
  import opened Distillation
  import opened RuleLifecycle
  import opened Evaluation
  import opened CandidatesExact

  // ---------------------------------------------------------------- assumptions

  function Decided(rows: seq<RuleRow>, c: Case): Option<LoadedRule> { Chosen(rows, PAYMENT_SCHEMA, ContextOf(c)) }

  /** A case that can occur, going by what rules can see of it. What can occur is a parameter throughout. */
  ghost predicate Occurs(possible: iset<Context>, c: Case) { ContextOf(c) in possible }

  /** Nothing ruled out. */
  ghost const ANYTHING: iset<Context> := iset context: Context | true

  ghost predicate AllOccur(possible: iset<Context>, cases: seq<Case>) {
    forall i :: 0 <= i < |cases| ==> Occurs(possible, cases[i])
  }

  /** The agent resolves cases of one reason to one action. */
  ghost predicate ReasonAgent(lab: Lab, possible: iset<Context>) {
    forall c: Case, d: Case :: Occurs(possible, c) && Occurs(possible, d) && c.reason == d.reason ==>
        lab.agent(c) == lab.agent(d)
  }

  /** The proposer returns the suggestion, whatever the request. */
  ghost predicate Echoes(u: Setup) {
    forall n, key, suggestion :: u.propose(n, key, suggestion) == Some(suggestion)
  }

  /** Hand-written rules, whatever they look at and whatever their priorities. */
  ghost predicate HandWritten(rows: seq<RuleRow>) {
    UniqueVersions(rows) && forall i :: 0 <= i < |rows| ==> !RowDistilled(rows[i])
  }

  /** Two cases that can occur such that a rule distilled from one may match the other. */
  ghost predicate Alike(possible: iset<Context>, c: Case, d: Case) {
    Occurs(possible, c) && Occurs(possible, d) && c.reason == d.reason && c.reason in REASONS
  }

  /** A rule that decides a case behind the distilled rules' priority 50 leaves no case of that reason to
      the agent. */
  ghost predicate Settled(possible: iset<Context>, base: seq<RuleRow>) {
    forall c: Case, d: Case ::
      Alike(possible, c, d) && Decided(base, c).Some? && Decided(base, c).value.priority > 50 ==> Decided(base, d).Some?
  }

  /** The rules decide all cases of a reason or none. */
  ghost predicate Uniform(possible: iset<Context>, base: seq<RuleRow>) {
    forall c: Case, d: Case :: Alike(possible, c, d) && Decided(base, c).Some? ==> Decided(base, d).Some?
  }

  /** Rules with priorities up to the distilled rules' own may look at anything. */
  lemma PrioritySettles(possible: iset<Context>, base: seq<RuleRow>)
    requires forall i :: 0 <= i < |base| ==> base[i].priority <= 50
    ensures Settled(possible, base)
  {
    forall c: Case, d: Case | Alike(possible, c, d) && Decided(base, c).Some?
      ensures Decided(base, c).value.priority <= 50
    {
      RoutingPicksBest(base, PAYMENT_SCHEMA, ContextOf(c));
    }
  }

  // ---------------------------------------------------------------- what distilled rules say

  /** A case of this reason that no rule decides and the agent resolves to this action. */
  ghost predicate AgentTakes(lab: Lab, possible: iset<Context>, base: seq<RuleRow>, reason: string, action: string) {
    exists d: Case :: Occurs(possible, d) && d.reason == reason && Decided(base, d).None?
        && lab.agent(d) == Some(action)
  }

  ghost predicate FromAgent(lab: Lab, possible: iset<Context>, base: seq<RuleRow>, o: Observation) {
    "failure_reason" in o.situation && AgentTakes(lab, possible, base, o.situation["failure_reason"], o.action)
  }

  ghost predicate EchoesAgent(lab: Lab, possible: iset<Context>, base: seq<RuleRow>, row: RuleRow) {
    && RowDistilled(row) && row.priority == 50
    && var key := row.provenance.key;
       && "failure_reason" in key
       && exists action :: AgentTakes(lab, possible, base, key["failure_reason"], action)
                           && row.definition == Suggested(PAYMENT_SCHEMA, key, action)
  }

  /** The hand-written rows as they were, and behind them rows that echo the agent. */
  ghost predicate RowsEcho(lab: Lab, possible: iset<Context>, base: seq<RuleRow>, rows: seq<RuleRow>) {
    && base <= rows
    && forall i :: |base| <= i < |rows| ==> EchoesAgent(lab, possible, base, rows[i])
  }

  /** What the hand-written rules, or a run of the distiller on top of them, leave in a database. */
  ghost predicate LeftBehind(lab: Lab, possible: iset<Context>, base: seq<RuleRow>, rows: seq<RuleRow>) {
    UniqueVersions(rows) && RowsEcho(lab, possible, base, rows)
  }

  ghost predicate PoolEchoes(lab: Lab, possible: iset<Context>, base: seq<RuleRow>, pool: seq<Observation>) {
    forall i :: 0 <= i < |pool| ==> FromAgent(lab, possible, base, pool[i])
  }

  /** A rule that echoes the agent matches only its own reason, one of the schema's, and takes the action the
      agent takes there. */
  lemma EchoMeansAgent(lab: Lab, possible: iset<Context>, base: seq<RuleRow>, row: RuleRow, c: Case)
    requires ReasonAgent(lab, possible) && EchoesAgent(lab, possible, base, row) && Load(row, PAYMENT_SCHEMA).Some?
    requires Occurs(possible, c) && Matches(Load(row, PAYMENT_SCHEMA).value.rule, ContextOf(c))
    ensures Some(Load(row, PAYMENT_SCHEMA).value.rule.action.name) == lab.agent(c)
    ensures exists d: Case :: Alike(possible, c, d) && Decided(base, d).None?
  {
    var key := row.provenance.key;
    var action :| AgentTakes(lab, possible, base, key["failure_reason"], action)
        && row.definition == Suggested(PAYMENT_SCHEMA, key, action);
    SuggestionParses(key, action);
    CompiledHoldsReason(key, action, c);
    var d: Case :| Occurs(possible, d) && d.reason == key["failure_reason"] && Decided(base, d).None?
        && lab.agent(d) == Some(action);
    assert Alike(possible, c, d);
  }

  lemma CompiledHoldsReason(key: Situation, action: string, c: Case)
    requires "failure_reason" in key && Matches(Compiled(PAYMENT_SCHEMA, key, action), ContextOf(c))
    ensures c.reason == key["failure_reason"]
  {
    var rule := Compiled(PAYMENT_SCHEMA, key, action);
    assert rule.precondition[0] == Predicate("failure_reason", Eq, Str(key["failure_reason"]));
    assert Holds(rule.precondition[0], ContextOf(c));
  }

  /** Whoever decides, the action is the one the hand-written rules and the agent alone would take. */
  lemma {:induction false} EchoesChangeNothing(lab: Lab, possible: iset<Context>, base: seq<RuleRow>,
                                               rows: seq<RuleRow>, c: Case)
    requires ReasonAgent(lab, possible) && Settled(possible, base) && RowsEcho(lab, possible, base, rows)
        && Occurs(possible, c)
    ensures ActionTaken(lab, Decided(rows, c), c) == ActionTaken(lab, Decided(base, c), c)
    ensures Decided(base, c).Some? ==> Decided(rows, c) == Decided(base, c)
  {
    if |rows| == |base| {
      assert rows == base;
    } else {
      var rest, last := rows[..|rows| - 1], rows[|rows| - 1];
      assert rows == rest + [last];
      EchoesChangeNothing(lab, possible, base, rest, c);
      ChosenSnoc(rest, last, PAYMENT_SCHEMA, ContextOf(c));
      if Applies(last, PAYMENT_SCHEMA, ContextOf(c)) {
        EchoMeansAgent(lab, possible, base, last, c);
      }
    }
  }

  // ---------------------------------------------------------------- one case

  ghost predicate Faithful(lab: Lab, possible: iset<Context>, base: seq<RuleRow>, s: State) {
    LeftBehind(lab, possible, base, s.rows) && PoolEchoes(lab, possible, base, s.pool)
  }

  lemma PoolStaysFaithful(lab: Lab, possible: iset<Context>, base: seq<RuleRow>, s: State, c: Case)
    requires ReasonAgent(lab, possible) && Settled(possible, base) && Faithful(lab, possible, base, s)
    requires Occurs(possible, c) && !lab.isControl(c)
    ensures PoolEchoes(lab, possible, base, Pooled(s.pool, HandledBy(lab, s.rows, c)))
  {
    var h := HandledBy(lab, s.rows, c);
    if h.fromAgent && h.action.Some? {
      EchoesChangeNothing(lab, possible, base, s.rows, c);
      assert Decided(base, c).None? && lab.agent(c) == h.action;
      ObservationOf(lab, possible, base, c, h);
    }
  }

  lemma ObservationOf(lab: Lab, possible: iset<Context>, base: seq<RuleRow>, c: Case, h: Handled)
    requires Occurs(possible, c) && h.context == ContextOf(c) && h.action.Some? && Decided(base, c).None?
        && lab.agent(c) == h.action
    ensures FromAgent(lab, possible, base,
        Observation(SituationFeatures(h.context), h.action.value, h.recovered, h.source))
  {
    assert SituationFeatures(h.context)["failure_reason"] == c.reason;
  }

  lemma ObserveStaysFaithful(lab: Lab, u: Setup, possible: iset<Context>, base: seq<RuleRow>, s: State, c: Case)
    requires ValidSetup(u) && ReasonAgent(lab, possible) && Settled(possible, base) && Faithful(lab, possible, base, s)
    requires Occurs(possible, c) && !lab.isControl(c)
    ensures Faithful(lab, possible, base, Observe(u, s, HandledBy(lab, s.rows, c)))
  {
    var h := HandledBy(lab, s.rows, c);
    var s0 := s.(pool := Pooled(s.pool, h));
    WatchWritesNoRow(u, s0, h, Watched(s.rows));
    SweepFrame(u, s0, Watch(h), Watched(s.rows));
    PoolStaysFaithful(lab, possible, base, s, c);
  }

  lemma BackedIsAgent(lab: Lab, possible: iset<Context>, base: seq<RuleRow>, pool: seq<Observation>, c: Candidate)
    requires PoolEchoes(lab, possible, base, pool) && Backed(pool, c)
    ensures "failure_reason" in c.key && AgentTakes(lab, possible, base, c.key["failure_reason"], c.action)
  {
    var i :| 0 <= i < |pool| && pool[i].action == c.action && "failure_reason" in pool[i].situation
             && Has(c.key, "failure_reason", pool[i].situation["failure_reason"]);
    assert FromAgent(lab, possible, base, pool[i]);
  }

  /** The row a candidate adds, if it adds one. */
  lemma NewRowEchoes(lab: Lab, u: Setup, possible: iset<Context>, base: seq<RuleRow>, s: State, c: Candidate)
    returns (row: RuleRow)
    requires Echoes(u) && PoolEchoes(lab, possible, base, s.pool) && Backed(s.pool, c)
        && DistillOne(u, s, c).rows != s.rows
    ensures DistillOne(u, s, c).rows == s.rows + [row]
    ensures EchoesAgent(lab, possible, base, row) && row.version == NextVersion(s.rows, row.key)
  {
    BackedIsAgent(lab, possible, base, s.pool, c);
    row := DistillOne(u, s, c).rows[|s.rows|];
    assert row.definition == Suggested(PAYMENT_SCHEMA, c.key, c.action);
  }

  lemma OneMoreEcho(lab: Lab, possible: iset<Context>, base: seq<RuleRow>, rows: seq<RuleRow>, row: RuleRow)
    requires LeftBehind(lab, possible, base, rows) && EchoesAgent(lab, possible, base, row)
        && row.version == NextVersion(rows, row.key)
    ensures LeftBehind(lab, possible, base, rows + [row])
  {
    NextVersionIsAbove(rows, row.key);
  }

  lemma DistillOneEchoes(lab: Lab, u: Setup, possible: iset<Context>, base: seq<RuleRow>, s: State, c: Candidate)
    requires Echoes(u) && Faithful(lab, possible, base, s) && Backed(s.pool, c)
    ensures Faithful(lab, possible, base, DistillOne(u, s, c)) && DistillOne(u, s, c).pool == s.pool
  {
    if DistillOne(u, s, c).rows != s.rows {
      var row := NewRowEchoes(lab, u, possible, base, s, c);
      OneMoreEcho(lab, possible, base, s.rows, row);
    }
  }

  lemma {:induction false} DistillEchoes(lab: Lab, u: Setup, possible: iset<Context>, base: seq<RuleRow>, s: State,
                                         cs: seq<Candidate>)
    requires Echoes(u) && Faithful(lab, possible, base, s) && forall c :: c in cs ==> Backed(s.pool, c)
    ensures Faithful(lab, possible, base, DistillAll(u, s, cs)) && DistillAll(u, s, cs).pool == s.pool
  {
    if cs != [] {
      var rest, last := cs[..|cs| - 1], cs[|cs| - 1];
      assert (forall c :: c in rest ==> c in cs) && last in cs;
      DistillEchoes(lab, u, possible, base, s, rest);
      DistillOneEchoes(lab, u, possible, base, DistillAll(u, s, rest), last);
    }
  }

  lemma PassStaysFaithful(lab: Lab, u: Setup, possible: iset<Context>, base: seq<RuleRow>, s: State, pass: Pass)
    requires ValidSetup(u) && HandWritten(base) && Faithful(lab, possible, base, s)
    ensures Faithful(lab, possible, base, Swept(u, s, pass))
  {
    var t := Swept(u, s, pass);
    SweepFrame(u, s, pass, RulesOf(s, pass));
    forall i | 0 <= i < |base| ensures t.rows[i] == base[i] {
      assert s.rows[i] == base[i];
      PassSpares(u, s, pass, i);
    }
    forall i | |base| <= i < |t.rows| ensures EchoesAgent(lab, possible, base, t.rows[i]) {
      assert SameIdentity(s.rows[i], t.rows[i]) && EchoesAgent(lab, possible, base, s.rows[i]);
    }
  }

  lemma BackedCandidates(lab: Lab, possible: iset<Context>, base: seq<RuleRow>, s: State)
    requires Faithful(lab, possible, base, s)
    ensures forall c :: c in Candidates(s.pool) ==> Backed(s.pool, c)
  {
    assert forall i :: 0 <= i < |s.pool| ==> FromAgent(lab, possible, base, s.pool[i]);
    forall c | c in Candidates(s.pool) ensures Backed(s.pool, c) {
      CandidatesAreBacked(s.pool, c);
    }
  }

  lemma StepStaysFaithful(lab: Lab, u: Setup, possible: iset<Context>, base: seq<RuleRow>, s: State, casesSeen: nat)
    requires ValidSetup(u) && Echoes(u) && HandWritten(base) && Faithful(lab, possible, base, s)
    ensures Faithful(lab, possible, base, Step(u, s, casesSeen))
  {
    if casesSeen % u.cadence == 0 {
      var t := s.(casesSeen := casesSeen);
      BackedCandidates(lab, possible, base, s);
      DistillEchoes(lab, u, possible, base, t, Candidates(t.pool));
      PassStaysFaithful(lab, u, possible, base, Distill(u, t), Promoting);
      PassStaysFaithful(lab, u, possible, base, Promote(u, Distill(u, t)), Demoting);
    }
  }

  // ---------------------------------------------------------------- whole runs

  lemma CaseStaysFaithful(lab: Lab, u: Setup, possible: iset<Context>, base: seq<RuleRow>, s: State, c: Case)
    requires ValidSetup(u) && Echoes(u) && ReasonAgent(lab, possible) && HandWritten(base) && Settled(possible, base)
    requires Faithful(lab, possible, base, s) && Occurs(possible, c)
    ensures Faithful(lab, possible, base, Counted(u, AfterObserving(lab, u, s, c), c))
  {
    if !lab.isControl(c) { ObserveStaysFaithful(lab, u, possible, base, s, c); }
    StepStaysFaithful(lab, u, possible, base, AfterObserving(lab, u, s, c), CasesUpTo(c));
  }

  /** Whatever the cases, the rows stay the hand-written ones and behind them rows that echo the agent. */
  lemma {:induction false} RunStaysFaithful(lab: Lab, u: Setup, possible: iset<Context>, base: seq<RuleRow>,
                                            rows: seq<RuleRow>, cases: seq<Case>)
    requires ValidSetup(u) && Echoes(u) && ReasonAgent(lab, possible) && HandWritten(base) && Settled(possible, base)
    requires LeftBehind(lab, possible, base, rows) && AllOccur(possible, cases)
    ensures Faithful(lab, possible, base, AfterCases(lab, u, rows, cases))
  {
    if cases != [] {
      var earlier := cases[..|cases| - 1];
      RunStaysFaithful(lab, u, possible, base, rows, earlier);
      CaseStaysFaithful(lab, u, possible, base, AfterCases(lab, u, rows, earlier), cases[|cases| - 1]);
    }
  }

  /** The decision and outcome of a record, whoever made it. */
  predicate SameOutcome(a: Record, b: Record) {
    && a.index == b.index && a.caseId == b.caseId
    && a.action == b.action && a.recovered == b.recovered
    && (a.path == Control <==> b.path == Control)
  }

  /** One case: with rules that echo the agent behind the hand-written ones, the outcome is the same, and
      the agent is asked only if it would have been asked without them. */
  ghost predicate CaseAgrees(distilled: Record, baseline: Record) {
    SameOutcome(distilled, baseline) && (distilled.path == ByAgent ==> baseline.path == ByAgent)
  }

  /** The distilled run on some rows against the baseline of the hand-written ones: case by case the same
      action with the same outcome, and the agent asked only where the baseline asked it. */
  ghost predicate SameDecisions(lab: Lab, u: Setup, base: seq<RuleRow>, rows: seq<RuleRow>, cases: seq<Case>)
    requires ValidSetup(u)
  {
    && |WithDistillation(lab, u, rows, cases)| == |cases| == |Baseline(lab, base, cases)|
    && forall i :: 0 <= i < |cases| ==>
         CaseAgrees(WithDistillation(lab, u, rows, cases)[i], Baseline(lab, base, cases)[i])
  }

  lemma RunsAgree(lab: Lab, u: Setup, possible: iset<Context>, base: seq<RuleRow>, rows: seq<RuleRow>, cases: seq<Case>,
                  i: nat)
    requires ValidSetup(u) && Echoes(u) && ReasonAgent(lab, possible) && HandWritten(base) && Settled(possible, base)
    requires LeftBehind(lab, possible, base, rows) && AllOccur(possible, cases) && i < |cases|
    ensures |WithDistillation(lab, u, rows, cases)| == |cases|
    ensures CaseAgrees(WithDistillation(lab, u, rows, cases)[i], Baseline(lab, base, cases)[i])
  {
    RecordAt(lab, u, rows, cases, i);
    RunStaysFaithful(lab, u, possible, base, rows, cases[..i]);
    EchoesChangeNothing(lab, possible, base, AfterCases(lab, u, rows, cases[..i]).rows, cases[i]);
  }

  /** Distillation preserves meaning: over every stream of cases, with an agent whose action depends only on
      the failure reason, a proposer that returns the suggestion, and hand-written rules of which none behind
      the distilled rules' priority decides only part of a reason; on a database that holds those rules alone
      or has been through such runs before. */
  lemma DistillationPreservesMeaning(lab: Lab, u: Setup, possible: iset<Context>, base: seq<RuleRow>,
                                     rows: seq<RuleRow>, cases: seq<Case>)
    requires ValidSetup(u) && Echoes(u) && ReasonAgent(lab, possible) && HandWritten(base) && Settled(possible, base)
    requires LeftBehind(lab, possible, base, rows) && AllOccur(possible, cases)
    ensures SameDecisions(lab, u, base, rows, cases)
    ensures LeftBehind(lab, possible, base, AfterCases(lab, u, rows, cases).rows)
  {
    RunLength(lab, u, rows, cases);
    forall i | 0 <= i < |cases|
      ensures CaseAgrees(WithDistillation(lab, u, rows, cases)[i], Baseline(lab, base, cases)[i])
    {
      RunsAgree(lab, u, possible, base, rows, cases, i);
    }
    RunStaysFaithful(lab, u, possible, base, rows, cases);
  }

  // ---------------------------------------------------------------- shadow agreement

  ghost predicate AllAgree(shadow: map<string, Stats>) {
    forall k :: k in shadow ==> shadow[k].agreed == shadow[k].matched
  }

  lemma UniformIsSettled(possible: iset<Context>, base: seq<RuleRow>)
    requires Uniform(possible, base)
    ensures Settled(possible, base)
  {
  }

  /** Every rule being watched that matches the case would have taken the action that was taken. */
  lemma WatchedRulesAgree(lab: Lab, possible: iset<Context>, base: seq<RuleRow>, rows: seq<RuleRow>, c: Case,
                          r: LoadedRule)
    requires ReasonAgent(lab, possible) && HandWritten(base) && Uniform(possible, base)
        && RowsEcho(lab, possible, base, rows)
    requires Occurs(possible, c) && r in Watched(rows) && Matches(r.rule, ContextOf(c))
    ensures ActionTaken(lab, Decided(rows, c), c) == Some(r.rule.action.name)
  {
    var i := WatchedRow(rows, r);
    assert forall j :: 0 <= j < |base| ==> rows[j] == base[j];
    EchoMeansAgent(lab, possible, base, rows[i], c);
    UniformIsSettled(possible, base);
    EchoesChangeNothing(lab, possible, base, rows, c);
  }

  lemma WatchedRow(rows: seq<RuleRow>, r: LoadedRule) returns (i: nat)
    requires r in Watched(rows)
    ensures i < |rows| && RowDistilled(rows[i]) && Load(rows[i], PAYMENT_SCHEMA) == Some(r)
  {
    var status := if r in DistilledRules(rows, Shadow) then Shadow else Active;
    DistilledRulesAreRows(rows, status, r);
    i :| 0 <= i < |rows| && RowDistilled(rows[i]) && LoadsAs(rows[i], status, PAYMENT_SCHEMA, r);
  }

  lemma {:induction false} WatchKeepsAgreement(u: Setup, s: State, h: Handled, rules: seq<LoadedRule>)
    requires ValidSetup(u) && AllAgree(s.shadow)
    requires forall r :: r in rules && Matches(r.rule, h.context) ==> h.action == Some(r.rule.action.name)
    ensures AllAgree(Sweep(u, s, Watch(h), rules).shadow)
  {
    if rules != [] {
      var rest, last := rules[..|rules| - 1], rules[|rules| - 1];
      assert (forall r :: r in rest ==> r in rules) && last in rules;
      WatchKeepsAgreement(u, s, h, rest);
    }
  }

  lemma ObserveKeepsAgreement(lab: Lab, u: Setup, possible: iset<Context>, base: seq<RuleRow>, s: State, c: Case)
    requires ValidSetup(u) && ReasonAgent(lab, possible) && HandWritten(base) && Uniform(possible, base)
        && !lab.isControl(c)
    requires Occurs(possible, c) && RowsEcho(lab, possible, base, s.rows) && AllAgree(s.shadow)
    ensures AllAgree(Observe(u, s, HandledBy(lab, s.rows, c)).shadow)
  {
    var h := HandledBy(lab, s.rows, c);
    forall r | r in Watched(s.rows) && Matches(r.rule, h.context)
      ensures h.action == Some(r.rule.action.name)
    {
      WatchedRulesAgree(lab, possible, base, s.rows, c, r);
    }
    WatchKeepsAgreement(u, s.(pool := Pooled(s.pool, h)), h, Watched(s.rows));
  }

  lemma CountingKeepsStats(u: Setup, s: State, c: Case)
    requires ValidSetup(u)
    ensures Counted(u, s, c).shadow == s.shadow
  {
    StepKeepsStats(u, s, CasesUpTo(c));
  }

  lemma CaseKeepsAgreement(lab: Lab, u: Setup, possible: iset<Context>, base: seq<RuleRow>, s: State, c: Case)
    requires ValidSetup(u) && ReasonAgent(lab, possible) && HandWritten(base) && Uniform(possible, base)
    requires Occurs(possible, c) && RowsEcho(lab, possible, base, s.rows) && AllAgree(s.shadow)
    ensures AllAgree(Counted(u, AfterObserving(lab, u, s, c), c).shadow)
  {
    if !lab.isControl(c) { ObserveKeepsAgreement(lab, u, possible, base, s, c); }
    CountingKeepsStats(u, AfterObserving(lab, u, s, c), c);
  }

  /** Where the rules decide all cases of a reason or none, every shadow match agrees. */
  lemma {:induction false} ShadowAgrees(lab: Lab, u: Setup, possible: iset<Context>, base: seq<RuleRow>,
                                        rows: seq<RuleRow>, cases: seq<Case>)
    requires ValidSetup(u) && Echoes(u) && ReasonAgent(lab, possible) && HandWritten(base) && Uniform(possible, base)
    requires LeftBehind(lab, possible, base, rows) && AllOccur(possible, cases)
    ensures AllAgree(AfterCases(lab, u, rows, cases).shadow)
  {
    if cases != [] {
      var earlier, c := cases[..|cases| - 1], cases[|cases| - 1];
      ShadowAgrees(lab, u, possible, base, rows, earlier);
      UniformIsSettled(possible, base);
      RunStaysFaithful(lab, u, possible, base, rows, earlier);
      CaseKeepsAgreement(lab, u, possible, base, AfterCases(lab, u, rows, earlier), c);
    }
  }

  // ---------------------------------------------------------------- the seed rules

  lemma SeedAppliesByReason(rows: seq<RuleRow>, e: SeedEntry, reason: string, action: string, c: Case)
    requires e.rule == SeedRule(reason, action) && Conforms(e.rule, PAYMENT_SCHEMA)
    ensures Load(SeedRow(rows, e), PAYMENT_SCHEMA).Some?
    ensures Applies(SeedRow(rows, e), PAYMENT_SCHEMA, ContextOf(c)) <==> c.reason == reason
  {
    ParseIsExact(Render(e.rule), PAYMENT_SCHEMA, e.rule);
    assert Holds(e.rule.precondition[0], ContextOf(c)) <==> c.reason == reason;
  }

  lemma SeedsDecideByReason(rows: seq<RuleRow>, c: Case)
    requires ListByStatus(rows, Active, PAYMENT_SCHEMA) == []
    ensures Decided(WithSeeds(rows), c).Some? <==> c.reason == "risk_blocked" || c.reason == "invalid_details"
  {
    SeedsConform();
    var first := Planted(rows, RISK_BLOCKED);
    SeedAppliesByReason(rows, RISK_BLOCKED, "risk_blocked", "escalate_to_human", c);
    SeedAppliesByReason(first, INVALID_DETAILS, "invalid_details", "send_payment_link", c);
    ChosenSnoc(rows, SeedRow(rows, RISK_BLOCKED), PAYMENT_SCHEMA, ContextOf(c));
    ChosenSnoc(first, SeedRow(first, INVALID_DETAILS), PAYMENT_SCHEMA, ContextOf(c));
  }

  /** What the seed rules decide: blocked risks go to a human, invalid details get a new link. */
  lemma SeedsSay(rows: seq<RuleRow>, c: Case)
    requires ListByStatus(rows, Active, PAYMENT_SCHEMA) == []
    ensures var decided := Decided(WithSeeds(rows), c);
            && (decided.None? <==> c.reason != "risk_blocked" && c.reason != "invalid_details")
            && (c.reason == "risk_blocked" ==> decided.value.rule.action.name == "escalate_to_human")
            && (c.reason == "invalid_details" ==> decided.value.rule.action.name == "send_payment_link")
            && (decided.Some? ==> decided.value.rule.action.params == map[])
  {
    SeedsConform();
    var first := Planted(rows, RISK_BLOCKED);
    SeedAppliesByReason(rows, RISK_BLOCKED, "risk_blocked", "escalate_to_human", c);
    SeedAppliesByReason(first, INVALID_DETAILS, "invalid_details", "send_payment_link", c);
    ParseIsExact(Render(RISK_BLOCKED.rule), PAYMENT_SCHEMA, RISK_BLOCKED.rule);
    ParseIsExact(Render(INVALID_DETAILS.rule), PAYMENT_SCHEMA, INVALID_DETAILS.rule);
    ChosenSnoc(rows, SeedRow(rows, RISK_BLOCKED), PAYMENT_SCHEMA, ContextOf(c));
    ChosenSnoc(first, SeedRow(first, INVALID_DETAILS), PAYMENT_SCHEMA, ContextOf(c));
  }

  lemma PlantedStaysHandWritten(rows: seq<RuleRow>, e: SeedEntry)
    requires HandWritten(rows)
    ensures HandWritten(Planted(rows, e))
  {
    NextVersionIsAbove(rows, e.key);
  }

  /** Seeding meets the assumptions: whatever inactive hand-written rows a database holds, distillation on
      top of the seed rules preserves meaning. */
  lemma SeedsAreUniform(possible: iset<Context>, rows: seq<RuleRow>)
    requires HandWritten(rows) && ListByStatus(rows, Active, PAYMENT_SCHEMA) == []
    ensures HandWritten(WithSeeds(rows)) && Uniform(possible, WithSeeds(rows))
  {
    PlantedStaysHandWritten(rows, RISK_BLOCKED);
    PlantedStaysHandWritten(Planted(rows, RISK_BLOCKED), INVALID_DETAILS);
    forall c: Case, d: Case | Alike(possible, c, d) && Decided(WithSeeds(rows), c).Some?
      ensures Decided(WithSeeds(rows), d).Some?
    {
      SeedsDecideByReason(rows, c);
      SeedsDecideByReason(rows, d);
    }
  }
}
