/** The evaluation harness: the baseline run and the distilled run over one stream of cases. */
module Evaluation {
  import opened Wrappers
  import opened Rules
  import opened PaymentRules
  import opened RuleStore
  import opened Distillation
  import D = Distiller

  datatype Case = Case(
    index: nat, caseId: string, paymentId: string, customerId: string, orderId: string, reason: string, amount: real,
    paymentMethod: string, successes: nat, failures: nat, hours: real, attempt: nat)

  const NO_ACTION := "no_action"

  /** The parts of an evaluation this model takes as given: the action the agent's run on a case resolves to,
      the customer simulator, the held-out group and the retry budget. */
  datatype Lab = Lab(
    agent: Case -> Option<string>, simulate: (Case, string, nat) -> bool, isControl: Case -> bool, budget: nat)

  datatype Path = Control | ByRule | ByAgent

  datatype Record = Record(
    index: nat, caseId: string, path: Path, action: Option<string>, recovered: bool, rule: Option<(string, nat)>)

  function ContextOf(c: Case): Context {
    map["failure_reason" := Str(c.reason),
        "amount_inr" := Num(c.amount),
        "method" := Str(c.paymentMethod),
        "customer_successful_payments" := Num(c.successes as real),
        "customer_failed_payments" := Num(c.failures as real),
        "hours_since_last_attempt" := Num(c.hours),
        "attempt_number" := Num(c.attempt as real)]
  }

  function OrNoAction(action: Option<string>): string {
    if action.None? || action.value == "" then NO_ACTION else action.value
  }

  function ActionTaken(lab: Lab, chosen: Option<LoadedRule>, c: Case): Option<string> {
    if chosen.Some? then Some(chosen.value.rule.action.name) else lab.agent(c)
  }

  function RecordOf(lab: Lab, rows: seq<RuleRow>, c: Case): Record {
    if lab.isControl(c) then Record(c.index, c.caseId, Control, None, lab.simulate(c, NO_ACTION, lab.budget), None)
    else
      var chosen := Chosen(rows, PAYMENT_SCHEMA, ContextOf(c));
      var action := ActionTaken(lab, chosen, c);
      Record(c.index, c.caseId, if chosen.Some? then ByRule else ByAgent, action,
             lab.simulate(c, OrNoAction(action), lab.budget),
             if chosen.Some? then Some((chosen.value.key, chosen.value.version)) else None)
  }

  /** A case of the held-out group is left alone: whatever the rules and the agent, no action is taken, and it
      recovers as its customer does when nothing is done. Any other is resolved by the best rule that applies,
      or by the agent if none does, and recovers as its customer does on that action. */
  lemma RecordTells(lab: Lab, rows: seq<RuleRow>, c: Case)
    ensures var r := RecordOf(lab, rows, c);
            && r.index == c.index && r.caseId == c.caseId
            && (r.path == Control <==> lab.isControl(c))
            && (lab.isControl(c) ==>
                  r.action == None && r.rule == None && r.recovered == lab.simulate(c, "no_action", lab.budget))
            && (!lab.isControl(c) ==>
                  && (r.path == ByAgent <==>
                       forall i :: 0 <= i < |rows| ==> !Applies(rows[i], PAYMENT_SCHEMA, ContextOf(c)))
                  && (r.path == ByAgent ==> r.action == lab.agent(c) && r.rule == None)
                  && (r.path == ByRule ==> NamesBest(rows, c, r))
                  && (r.action.Some? && r.action.value != "" ==>
                        r.recovered == lab.simulate(c, r.action.value, lab.budget))
                  && (r.action.None? ==> r.recovered == lab.simulate(c, "no_action", lab.budget)))
  {
    RoutingPicksBest(rows, PAYMENT_SCHEMA, ContextOf(c));
  }

  /** The record names a best applicable row and takes its action. */
  ghost predicate NamesBest(rows: seq<RuleRow>, c: Case, r: Record) {
    exists i :: 0 <= i < |rows| && Best(rows, PAYMENT_SCHEMA, ContextOf(c), i)
                && r.rule == Some((rows[i].key, rows[i].version))
                && r.action == Some(Load(rows[i], PAYMENT_SCHEMA).value.rule.action.name)
  }

  method Process(lab: Lab, repo: RuleRepository, c: Case) returns (record: Record)
    requires repo.schema == PAYMENT_SCHEMA
    ensures record == RecordOf(lab, repo.rows, c)
  {
    if lab.isControl(c) {
      return Record(c.index, c.caseId, Control, None, lab.simulate(c, NO_ACTION, lab.budget), None);
    }
    var action := None;
    var path, rule := ByAgent, None;
    var decision := Route(repo, ContextOf(c));
    if decision.Deterministic? {
      action, path, rule := Some(decision.action.name), ByRule, Some((decision.key, decision.version));
    } else {
      action := lab.agent(c);
    }
    var recovered := lab.simulate(c, OrNoAction(action), lab.budget);
    return Record(c.index, c.caseId, path, action, recovered, rule);
  }

  // ---------------------------------------------------------------- the two runs

  function Baseline(lab: Lab, rows: seq<RuleRow>, cases: seq<Case>): seq<Record> {
    seq(|cases|, i requires 0 <= i < |cases| => RecordOf(lab, rows, cases[i]))
  }

  method RunEval(lab: Lab, repo: RuleRepository, cases: seq<Case>) returns (records: seq<Record>)
    requires repo.schema == PAYMENT_SCHEMA
    ensures records == Baseline(lab, repo.rows, cases)
  {
    records := [];
    for i := 0 to |cases|
      invariant records == Baseline(lab, repo.rows, cases)[..i]
    {
      var record := Process(lab, repo, cases[i]);
      records := records + [record];
    }
  }

  function HandledBy(lab: Lab, rows: seq<RuleRow>, c: Case): Handled {
    var record := RecordOf(lab, rows, c);
    Handled(ContextOf(c), record.action, record.recovered, record.path == ByAgent, c.paymentId)
  }

  /** What the distiller is shown of a case: nothing about the control group. */
  function AfterObserving(lab: Lab, u: Setup, s: State, c: Case): State
    requires ValidSetup(u)
  {
    if lab.isControl(c) then s else Observe(u, s, HandledBy(lab, s.rows, c))
  }

  /** How many cases there have been, control cases included. */
  function CasesUpTo(c: Case): nat { c.index + 1 }

  function Counted(u: Setup, s: State, c: Case): State
    requires ValidSetup(u)
  {
    Step(u, s, CasesUpTo(c))
  }

  function AfterCases(lab: Lab, u: Setup, rows: seq<RuleRow>, cases: seq<Case>): State
    requires ValidSetup(u)
  {
    if cases == [] then Start(rows)
    else
      var c := cases[|cases| - 1];
      Counted(u, AfterObserving(lab, u, AfterCases(lab, u, rows, cases[..|cases| - 1]), c), c)
  }

  lemma AfterSnoc(lab: Lab, u: Setup, rows: seq<RuleRow>, cases: seq<Case>, c: Case)
    requires ValidSetup(u)
    ensures AfterCases(lab, u, rows, cases + [c]) ==
            Counted(u, AfterObserving(lab, u, AfterCases(lab, u, rows, cases), c), c)
  {
    assert (cases + [c])[..|cases|] == cases;
  }

  /** Each case is decided by the rules as they stand when it arrives. */
  function WithDistillation(lab: Lab, u: Setup, rows: seq<RuleRow>, cases: seq<Case>): seq<Record>
    requires ValidSetup(u)
  {
    if cases == [] then []
    else
      var earlier := cases[..|cases| - 1];
      WithDistillation(lab, u, rows, earlier)
          + [RecordOf(lab, AfterCases(lab, u, rows, earlier).rows, cases[|cases| - 1])]
  }

  method DecideAndShow(lab: Lab, distiller: D.PaymentDistiller, c: Case) returns (record: Record)
    requires distiller.Valid()
    modifies distiller, distiller.shadow.Values
    ensures distiller.Valid() && fresh(distiller.shadow.Values - old(distiller.shadow.Values))
    ensures record == RecordOf(lab, old(distiller.repo.rows), c)
    ensures distiller.Model() == AfterObserving(lab, distiller.setup, old(distiller.Model()), c)
  {
    record := Process(lab, distiller.repo, c);
    if record.path != Control {
      distiller.Observe(Handled(ContextOf(c), record.action, record.recovered, record.path == ByAgent, c.paymentId));
    }
  }

  /** One case of the distilled run: decided by the rules as they stand, shown to the distiller, counted. */
  method HandleCase(lab: Lab, distiller: D.PaymentDistiller, c: Case, ghost s: State) returns (record: Record)
    requires distiller.Valid() && distiller.Model() == s
    modifies distiller, distiller.repo, distiller.shadow.Values
    ensures distiller.Valid() && fresh(distiller.shadow.Values - old(distiller.shadow.Values))
    ensures record == RecordOf(lab, s.rows, c)
    ensures distiller.Model() == Counted(distiller.setup, AfterObserving(lab, distiller.setup, s, c), c)
  {
    record := DecideAndShow(lab, distiller, c);
    ghost var t := distiller.Model();
    CountedIsStep(distiller.setup, t, c);
    Count(distiller, CasesUpTo(c), t, Counted(distiller.setup, t, c));
  }

  method Count(distiller: D.PaymentDistiller, casesSeen: nat, ghost before: State, ghost after: State)
    requires distiller.Valid() && distiller.Model() == before && after == Step(distiller.setup, before, casesSeen)
    modifies distiller, distiller.repo
    ensures distiller.Valid() && distiller.shadow == old(distiller.shadow)
    ensures distiller.Model() == after
  {
    distiller.Step(casesSeen);
  }

  lemma CountedIsStep(u: Setup, s: State, c: Case)
    requires ValidSetup(u)
    ensures Counted(u, s, c) == Step(u, s, CasesUpTo(c))
  {
  }

  method RunEvalDistilled(lab: Lab, u: Setup, repo: RuleRepository, cases: seq<Case>) returns (records: seq<Record>)
    requires ValidSetup(u) && repo.schema == PAYMENT_SCHEMA && UniqueVersions(repo.rows)
    modifies repo
    ensures records == WithDistillation(lab, u, old(repo.rows), cases)
    ensures repo.rows == AfterCases(lab, u, old(repo.rows), cases).rows
  {
    var distiller := new D.PaymentDistiller(repo, u);
    records := [];
    ghost var rows := repo.rows;
    for i := 0 to |cases|
      invariant distiller.Valid() && distiller.repo == repo && distiller.setup == u
      invariant fresh(distiller) && fresh(distiller.shadow.Values)
      invariant distiller.Model() == AfterCases(lab, u, rows, cases[..i])
      invariant records == WithDistillation(lab, u, rows, cases[..i])
    {
      assert cases[..i + 1][..i] == cases[..i];
      var record := HandleCase(lab, distiller, cases[i], AfterCases(lab, u, rows, cases[..i]));
      records := records + [record];
    }
    assert cases[..|cases|] == cases;
  }

  lemma {:induction false} RunLength(lab: Lab, u: Setup, base: seq<RuleRow>, cases: seq<Case>)
    requires ValidSetup(u)
    ensures |WithDistillation(lab, u, base, cases)| == |cases|
  {
    if cases != [] { RunLength(lab, u, base, cases[..|cases| - 1]); }
  }

  lemma {:induction false} RecordAt(lab: Lab, u: Setup, base: seq<RuleRow>, cases: seq<Case>, i: nat)
    requires ValidSetup(u) && i < |cases|
    ensures |WithDistillation(lab, u, base, cases)| == |cases|
    ensures WithDistillation(lab, u, base, cases)[i]
        == RecordOf(lab, AfterCases(lab, u, base, cases[..i]).rows, cases[i])
  {
    var earlier := cases[..|cases| - 1];
    RunLength(lab, u, base, earlier);
    if i < |earlier| {
      RecordAt(lab, u, base, earlier, i);
      assert earlier[..i] == cases[..i];
    }
  }

  // ---------------------------------------------------------------- the seed rules

  const SEED_PROVENANCE := Provenance("seed", map[], [], 0, Some(0), None, [])

  function SeedRule(reason: string, action: string): Rule {
    Rule([Predicate("failure_reason", Eq, Str(reason))], RuleAction(action, map[]))
  }

  datatype SeedEntry = SeedEntry(key: string, priority: int, rule: Rule)

  const RISK_BLOCKED := SeedEntry("seed-risk-blocked-escalate", 10, SeedRule("risk_blocked", "escalate_to_human"))
  const INVALID_DETAILS :=
    SeedEntry("seed-invalid-details-resend-link", 20, SeedRule("invalid_details", "send_payment_link"))

  function SeedRow(rows: seq<RuleRow>, e: SeedEntry): RuleRow {
    RuleRow(e.key, NextVersion(rows, e.key), Active, e.priority, Render(e.rule), SEED_PROVENANCE)
  }

  function Planted(rows: seq<RuleRow>, e: SeedEntry): seq<RuleRow> { rows + [SeedRow(rows, e)] }

  function WithSeeds(rows: seq<RuleRow>): seq<RuleRow> { Planted(Planted(rows, RISK_BLOCKED), INVALID_DETAILS) }

  /** A database without a usable active rule gets the two seed rules; any other is taken as it is. */
  function Prepared(rows: seq<RuleRow>): seq<RuleRow> {
    if ListByStatus(rows, Active, PAYMENT_SCHEMA) == [] then WithSeeds(rows) else rows
  }

  method Plant(repo: RuleRepository, e: SeedEntry)
    requires repo.schema == PAYMENT_SCHEMA && UniqueVersions(repo.rows) && Conforms(e.rule, PAYMENT_SCHEMA)
    modifies repo
    ensures UniqueVersions(repo.rows) && repo.rows == Planted(old(repo.rows), e)
  {
    ParseIsExact(Render(e.rule), PAYMENT_SCHEMA, e.rule);
    var _ := repo.AddRule(e.key, Render(e.rule), Active, SEED_PROVENANCE, e.priority, None);
  }

  method Seed(repo: RuleRepository)
    requires repo.schema == PAYMENT_SCHEMA && UniqueVersions(repo.rows)
    modifies repo
    ensures UniqueVersions(repo.rows) && repo.rows == WithSeeds(old(repo.rows))
  {
    SeedsConform();
    Plant(repo, RISK_BLOCKED);
    Plant(repo, INVALID_DETAILS);
  }

  method Prepare(repo: RuleRepository)
    requires repo.schema == PAYMENT_SCHEMA && UniqueVersions(repo.rows)
    modifies repo
    ensures UniqueVersions(repo.rows) && repo.rows == Prepared(old(repo.rows))
  {
    if ListByStatus(repo.rows, Active, PAYMENT_SCHEMA) == [] { Seed(repo); }
  }

  lemma SeedsConform()
    ensures Conforms(RISK_BLOCKED.rule, PAYMENT_SCHEMA) && Conforms(INVALID_DETAILS.rule, PAYMENT_SCHEMA)
  {
    assert PredicateConforms(RISK_BLOCKED.rule.precondition[0], PAYMENT_SCHEMA);
    assert PredicateConforms(INVALID_DETAILS.rule.precondition[0], PAYMENT_SCHEMA);
  }
}
