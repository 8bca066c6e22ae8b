/** What the distiller does to its state, one observation or one step at a time: observations are pooled
    and clustered, clusters are compiled to shadow rules, and shadow statistics promote and demote. */
module Distillation {
  import opened Wrappers
  import opened Rules
  import opened Situations
  import opened Clusters
  import opened PaymentRules
  import opened Lifecycle
  import opened RuleStore
  import Wilson

  const MIN_CLUSTER_SUPPORT := 15
  const MIN_CLUSTER_AGREEMENT := 0.80
  const REASON_RECOVERY_HINT := 0.60

  /** One handled case as the distiller is told about it. */
  datatype Handled = Handled(
    context: Context, action: Option<string>, recovered: bool, fromAgent: bool, source: string)

  datatype Promotion = Promotion(key: string, stats: Stats, atCase: nat)

  datatype Demotion = Demotion(key: string, recovered: nat, total: nat, atCase: nat)

  datatype Log = Log(
    created: seq<string>, promoted: seq<Promotion>, demoted: seq<Demotion>, blocked: seq<string>, invalid: nat)

  /** `root` computes the square root a Wilson bound takes; `propose` is the proposer's answer to its n-th
      request, None when the text is not JSON. Times are counted in observations. */
  datatype Setup = Setup(
    promotion: PromotionPolicy, demotion: DemotionPolicy, cadence: nat, threshold: real,
    root: (nat, nat, real) -> real, propose: (nat, Situation, Json) -> Option<Json>)

  /** The roots taken are roots. */
  ghost predicate Rooted(u: Setup) {
    forall k: nat, n: nat :: k <= n && n > 0 ==> Wilson.IsRoot(u.root(k, n, Wilson.Z95), k, n, Wilson.Z95)
  }

  predicate ValidSetup(u: Setup) { u.cadence > 0 && u.demotion.minRecent >= 0 }

  datatype State = State(
    rows: seq<RuleRow>, pool: seq<Observation>, created: set<string>, shadow: map<string, Stats>,
    recent: map<string, seq<bool>>, log: Log, casesSeen: nat, requests: nat, clock: nat)

  function Start(rows: seq<RuleRow>): State {
    State(rows, [], {}, map[], map[], Log([], [], [], [], 0), 0, 0, 0)
  }

  // ---------------------------------------------------------------- the rules being watched

  predicate IsDistilled(r: LoadedRule) { r.provenance.origin == "distilled" }

  function OnlyDistilled(rules: seq<LoadedRule>): seq<LoadedRule> {
    if rules == [] then []
    else (if IsDistilled(rules[0]) then [rules[0]] else []) + OnlyDistilled(rules[1..])
  }

  function DistilledRules(rows: seq<RuleRow>, status: RuleStatus): seq<LoadedRule> {
    OnlyDistilled(ListByStatus(rows, status, PAYMENT_SCHEMA))
  }

  function Watched(rows: seq<RuleRow>): seq<LoadedRule> {
    DistilledRules(rows, Shadow) + DistilledRules(rows, Active)
  }

  // ---------------------------------------------------------------- one rule's turn

  /** What the distiller does with each rule it goes through. */
  datatype Pass = Watch(h: Handled) | Promoting | Demoting

  /** The row, statistics and window that belong to one rule, and what the log says of its promotions and
      demotions: on which statistics, and on how many recoveries of how many. */
  datatype RuleView = RuleView(
    row: RuleRow, stats: Option<Stats>, window: Option<seq<bool>>, promoted: seq<Stats>, demoted: seq<(nat, nat)>)

  /** A deque of bounded length. */
  function Pushed(window: seq<bool>, b: bool, bound: nat): seq<bool> {
    LastOf(window + [b], bound)
  }

  function LastOf(s: seq<bool>, n: nat): seq<bool> {
    if |s| <= n then s else s[|s| - n..]
  }

  function CountTrue(s: seq<bool>): nat {
    if s == [] then 0 else CountTrue(s[..|s| - 1]) + if s[|s| - 1] then 1 else 0
  }

  function Get<V>(m: map<string, V>, k: string): Option<V> {
    if k in m then Some(m[k]) else None
  }

  function NextStats(stats: Option<Stats>, rule: Rule, h: Handled): Stats {
    Recorded(if stats.Some? then stats.value else Stats(0, 0, 0), Some(rule.action.name) == h.action, h.recovered)
  }

  function NextWindow(window: Option<seq<bool>>, h: Handled, bound: nat): seq<bool> {
    Pushed(if window.Some? then window.value else [], h.recovered, bound)
  }

  /** A refund rule whose precondition does not bound the amount by the approval threshold. */
  predicate IsHighValueRefund(rule: Rule, threshold: real) {
    && rule.action.name == "refund"
    && !exists i :: 0 <= i < |rule.precondition| && BoundsAmount(rule.precondition[i], threshold)
  }

  predicate BoundsAmount(p: Predicate, threshold: real) {
    p.field == "amount_inr" && (p.op == Lt || p.op == Le) && AsNumber(p.value).Some?
        && AsNumber(p.value).value <= threshold
  }

  predicate Qualifies(u: Setup, stats: Option<Stats>) {
    && stats.Some?
    && var s := stats.value;
       QualifiesForPromotion(s, u.promotion, u.root(s.agreed, s.matched, u.promotion.z),
                             u.root(s.recovered, s.matched, u.promotion.z))
  }

  predicate Promotes(u: Setup, stats: Option<Stats>, rule: Rule) {
    Qualifies(u, stats) && !IsHighValueRefund(rule, u.threshold)
  }

  predicate Demotes(u: Setup, window: Option<seq<bool>>) {
    && window.Some?
    && ShouldDemote(CountTrue(window.value), |window.value|, u.demotion,
                    u.root(CountTrue(window.value), |window.value|, u.demotion.z))
  }

  const DEMOTION_REASON := "recent recovery upper bound below floor"

  function Touch(u: Setup, s: State, pass: Pass, r: LoadedRule): State
    requires ValidSetup(u)
  {
    match pass
    case Watch(h) =>
      if !Matches(r.rule, h.context) then s
      else
        var t := s.(shadow := s.shadow[r.key := NextStats(Get(s.shadow, r.key), r.rule, h)]);
        if r.status != Active then t
        else t.(recent := s.recent[r.key := NextWindow(Get(s.recent, r.key), h, u.demotion.minRecent)])
    case Promoting =>
      var stats := Get(s.shadow, r.key);
      if !Qualifies(u, stats) then s
      else if IsHighValueRefund(r.rule, u.threshold) then
        if r.key in s.log.blocked then s else s.(log := s.log.(blocked := s.log.blocked + [r.key]))
      else s.(rows := SetStatusIn(s.rows, r.key, r.version, Active, s.clock, ""),
              log := s.log.(promoted := s.log.promoted + [Promotion(r.key, stats.value, s.casesSeen)]))
    case Demoting =>
      var window := Get(s.recent, r.key);
      if !Demotes(u, window) then s
      else s.(rows := SetStatusIn(s.rows, r.key, r.version, Demoted, s.clock, DEMOTION_REASON),
              recent := s.recent[r.key := []],
              log := s.log.(demoted := s.log.demoted
                                       + [Demotion(r.key, CountTrue(window.value), |window.value|, s.casesSeen)]))
  }

  function Sweep(u: Setup, s: State, pass: Pass, rules: seq<LoadedRule>): State
    requires ValidSetup(u)
  {
    if rules == [] then s else Touch(u, Sweep(u, s, pass, rules[..|rules| - 1]), pass, rules[|rules| - 1])
  }

  // ---------------------------------------------------------------- observing

  function Pooled(pool: seq<Observation>, h: Handled): seq<Observation> {
    if h.fromAgent && h.action.Some? then
      pool + [Observation(SituationFeatures(h.context), h.action.value, h.recovered, h.source)]
    else pool
  }

  function Observe(u: Setup, s: State, h: Handled): State
    requires ValidSetup(u)
  {
    var t := Sweep(u, s.(pool := Pooled(s.pool, h)), Watch(h), Watched(s.rows));
    t.(clock := s.clock + 1)
  }

  // ---------------------------------------------------------------- distilling

  datatype Candidate = Candidate(key: Situation, action: string, sources: seq<string>)

  const BY_REASON: set<string> := {"failure_reason"}
  const BY_REASON_AND_BAND: set<string> := {"failure_reason", "amount_band"}

  predicate Agreeing(c: Summary) {
    c.support >= MIN_CLUSTER_SUPPORT && Agreement(c) >= MIN_CLUSTER_AGREEMENT && c.actions != []
  }

  /** Large enough, of one mind, and recovering. */
  predicate Worthy(c: Summary) { Agreeing(c) && RecoveryRate(c) >= REASON_RECOVERY_HINT }

  function CandidateOf(c: Summary): Candidate
    requires c.actions != []
  {
    Candidate(c.key, Dominant(c.actions).action, c.sources)
  }

  function RefinedCandidates(cs: seq<Summary>): seq<Candidate> {
    if cs == [] then []
    else
      var last := cs[|cs| - 1];
      RefinedCandidates(cs[..|cs| - 1]) + if Worthy(last) then [CandidateOf(last)] else []
  }

  function CandidatesFor(pool: seq<Observation>, c: Summary): seq<Candidate> {
    if c.support < MIN_CLUSTER_SUPPORT then []
    else if Worthy(c) then [CandidateOf(c)]
    else RefinedCandidates(Clustered(Members(pool, BY_REASON, c.key), BY_REASON_AND_BAND))
  }

  function CandidatesOf(pool: seq<Observation>, cs: seq<Summary>): seq<Candidate> {
    if cs == [] then [] else CandidatesOf(pool, cs[..|cs| - 1]) + CandidatesFor(pool, cs[|cs| - 1])
  }

  /** The situations worth a rule: by reason, or by reason and amount band where the reason alone looks
      inconsistent in action or outcome. */
  function Candidates(pool: seq<Observation>): seq<Candidate> {
    CandidatesOf(pool, Clustered(pool, BY_REASON))
  }

  /** The proposal, if it validates. */
  function Accepted(response: Option<Json>): Option<Json> {
    if response.Some? && ParseRule(response.value, PAYMENT_SCHEMA).Some? then response else None
  }

  function Born(c: Candidate, now: nat): Provenance {
    Provenance("distilled", c.key, if |c.sources| <= 20 then c.sources else c.sources[..20], now, None, None, [])
  }

  function DistillOne(u: Setup, s: State, c: Candidate): State {
    var ruleKey := RuleKey(c.key);
    if ruleKey in s.created || "failure_reason" !in c.key then s
    else
      var definition := Accepted(u.propose(s.requests, c.key, Suggested(PAYMENT_SCHEMA, c.key, c.action)));
      var t := s.(requests := s.requests + 1);
      match definition
      case None => t.(log := s.log.(invalid := s.log.invalid + 1))
      case Some(d) =>
        t.(rows := s.rows + [RuleRow(ruleKey, NextVersion(s.rows, ruleKey), Shadow, 50, d, Born(c, s.clock))],
           created := s.created + {ruleKey},
           log := s.log.(created := s.log.created + [ruleKey]))
  }

  function DistillAll(u: Setup, s: State, cs: seq<Candidate>): State {
    if cs == [] then s else DistillOne(u, DistillAll(u, s, cs[..|cs| - 1]), cs[|cs| - 1])
  }

  function Distill(u: Setup, s: State): State { DistillAll(u, s, Candidates(s.pool)) }

  function Promote(u: Setup, s: State): State
    requires ValidSetup(u)
  {
    Sweep(u, s, Promoting, DistilledRules(s.rows, Shadow))
  }

  function Demote(u: Setup, s: State): State
    requires ValidSetup(u)
  {
    Sweep(u, s, Demoting, DistilledRules(s.rows, Active))
  }

  function Step(u: Setup, s: State, casesSeen: nat): State
    requires ValidSetup(u)
  {
    var t := s.(casesSeen := casesSeen);
    if casesSeen % u.cadence != 0 then t else Demote(u, Promote(u, Distill(u, t)))
  }

  // ---------------------------------------------------------------- runs

  datatype Event = Observing(h: Handled) | Stepping(casesSeen: nat)

  function Next(u: Setup, s: State, e: Event): State
    requires ValidSetup(u)
  {
    match e
    case Observing(h) => Observe(u, s, h)
    case Stepping(n) => Step(u, s, n)
  }

  function Run(u: Setup, s: State, events: seq<Event>): State
    requires ValidSetup(u)
  {
    if events == [] then s else Next(u, Run(u, s, events[..|events| - 1]), events[|events| - 1])
  }

  function Observed(events: seq<Event>): seq<Handled> {
    if events == [] then []
    else
      var last := events[|events| - 1];
      Observed(events[..|events| - 1]) + if last.Observing? then [last.h] else []
  }
}
