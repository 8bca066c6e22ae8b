/** The conditions under which distillation preserves meaning are exact: for rules that miss them, a stream
    of cases on which the distilled run decides otherwise, or on which a shadow match disagrees. */
module MeaningExact {
  import opened Wrappers
  import opened Rules
  import opened Situations
  import opened Clusters
  import opened PaymentRules
  import opened Lifecycle
  import opened RuleStore
  import opened Distillation
  import opened RuleLifecycle
  import opened Evaluation
  import opened Meaning
  import Wilson

  /** The promotion policy as it stands, and a proposer that returns the suggestion. */
  ghost predicate SourcePolicy(u: Setup) { ValidSetup(u) && Echoes(u) && u.promotion == PROMOTION }

  /** The agent always resolves to one action, every case recovers, nobody is held out. */
  function Steadfast(action: string): Lab {
    Lab((c: Case) => Some(action), (c: Case, a: string, budget: nat) => true, (c: Case) => false, 0)
  }

  function Rival(action: string): string {
    if action == "escalate_to_human" then "send_payment_link" else "escalate_to_human"
  }

  const RIVALS: set<string> := {"escalate_to_human", "send_payment_link"}

  // ---------------------------------------------------------------- one case, over and over

  function Name(i: nat): string { seq(i, _ => 'x') }

  /** The case as the i-th of a stream, with ids of its own. */
  function Nth(d: Case, i: nat): Case {
    d.(index := i, caseId := Name(i), paymentId := Name(i), orderId := Name(i))
  }

  function First(d: Case, n: nat): seq<Case> {
    if n == 0 then [] else First(d, n - 1) + [Nth(d, n - 1)]
  }

  lemma {:induction false} FirstAre(d: Case, n: nat)
    ensures |First(d, n)| == n && forall i :: 0 <= i < n ==> First(d, n)[i] == Nth(d, i)
  {
    if n > 0 { FirstAre(d, n - 1); }
  }

  lemma OneMoreCase(d: Case, n: nat, k: nat)
    requires k == n + 1
    ensures First(d, k) == First(d, n) + [Nth(d, n)]
  {
  }

  /** A stream as the evaluation numbers it: in order from 0, no two cases sharing case, payment or order. */
  ghost predicate Stream(cases: seq<Case>) {
    && (forall i :: 0 <= i < |cases| ==> cases[i].index == i)
    && forall i, j :: 0 <= i < j < |cases| ==>
         cases[i].caseId != cases[j].caseId && cases[i].paymentId != cases[j].paymentId
             && cases[i].orderId != cases[j].orderId
  }

  /** A case repeated and then another, numbered as a stream. */
  lemma RepeatedThenOther(possible: iset<Context>, d: Case, n: nat, c: Case)
    requires Occurs(possible, d) && Occurs(possible, c)
    ensures var cases := First(d, n) + [Nth(c, n)];
            && |cases| == n + 1 && cases[..n] == First(d, n) && cases[n] == Nth(c, n)
            && Stream(cases) && AllOccur(possible, cases)
  {
    FirstAre(d, n);
    var cases := First(d, n) + [Nth(c, n)];
    forall i | 0 <= i <= n ensures cases[i] == (if i < n then Nth(d, i) else Nth(c, i)) {}
    forall i, j | 0 <= i < j <= n ensures Name(i) != Name(j) { assert |Name(i)| == i && |Name(j)| == j; }
  }

  // ---------------------------------------------------------------- the cadence

  predicate OnCadence(cadence: nat, n: nat)
    requires cadence > 0
  {
    n % cadence == 0
  }

  /** The first count from m on at which the distiller steps. */
  ghost predicate FirstStep(cadence: nat, m: nat, n: nat)
    requires cadence > 0
  {
    m <= n && OnCadence(cadence, n) && forall k: nat :: m <= k < n ==> !OnCadence(cadence, k)
  }

  lemma MultiplesAreApart(cadence: int, q: int)
    requires cadence > 0
    ensures q >= 1 ==> cadence * q >= cadence && cadence * q >= q
    ensures q <= -1 ==> cadence * q <= -cadence
  {
  }

  lemma MultiplesAreOnCadence(cadence: int, q: int)
    requires cadence > 0
    ensures (cadence * q) % cadence == 0
  {
    var m := cadence * q;
    var p, r := m / cadence, m % cadence;
    assert cadence * (q - p) == r;
    MultiplesAreApart(cadence, q - p);
  }

  lemma MultipleAbove(cadence: nat, m: nat) returns (last: nat)
    requires cadence > 0
    ensures last >= m && OnCadence(cadence, last)
  {
    var n: int := cadence * m;
    MultiplesAreOnCadence(cadence, m);
    MultiplesAreApart(cadence, m);
    last := n;
  }

  lemma FirstStepExists(cadence: nat, m: nat) returns (n: nat)
    requires cadence > 0
    ensures FirstStep(cadence, m, n)
  {
    var last := MultipleAbove(cadence, m);
    n := m;
    while !OnCadence(cadence, n)
      invariant m <= n <= last
      invariant forall k: nat :: m <= k < n ==> !OnCadence(cadence, k)
      decreases last - n
    {
      n := n + 1;
    }
  }

  // ---------------------------------------------------------------- what the distiller makes of it

  function ObservationOn(d: Case, action: string): Observation {
    Observation(SituationFeatures(ContextOf(d)), action, true, d.paymentId)
  }

  function Pool(d: Case, action: string, n: nat): seq<Observation> {
    if n == 0 then [] else Pool(d, action, n - 1) + [ObservationOn(Nth(d, n - 1), action)]
  }

  function ReasonKey(d: Case): Situation { map["failure_reason" := d.reason] }

  lemma KeyIsReason(d: Case, action: string)
    ensures KeyOf(ObservationOn(d, action), BY_REASON) == ReasonKey(d)
  {
  }

  lemma {:induction false} PoolIsOneCluster(d: Case, action: string, n: nat)
    requires n > 0
    ensures Keys(Pool(d, action, n), BY_REASON) == [ReasonKey(d)]
    ensures Members(Pool(d, action, n), BY_REASON, ReasonKey(d)) == Pool(d, action, n)
  {
    var o := ObservationOn(Nth(d, n - 1), action);
    KeyIsReason(Nth(d, n - 1), action);
    KeysSnoc(Pool(d, action, n - 1), o, BY_REASON);
    MembersSnoc(Pool(d, action, n - 1), o, BY_REASON, ReasonKey(d));
    if n > 1 {
      PoolIsOneCluster(d, action, n - 1);
    } else {
      assert Members(Pool(d, action, 0), BY_REASON, ReasonKey(d)) == [] && Keys(Pool(d, action, 0), BY_REASON) == [];
    }
  }

  lemma {:induction false} PoolSummarised(key: Situation, d: Case, action: string, n: nat)
    requires n > 0
    ensures var c := Summarise(key, Pool(d, action, n));
            c.key == key && c.support == n && c.recovered == n && c.actions == [Tally(action, n)]
  {
    SummariseSnoc(key, Pool(d, action, n - 1), ObservationOn(Nth(d, n - 1), action));
    if n > 1 { PoolSummarised(key, d, action, n - 1); }
  }

  lemma UnanimousIsWorthy(c: Summary, action: string)
    requires c.support == c.recovered >= MIN_CLUSTER_SUPPORT && c.actions == [Tally(action, c.support)]
    ensures Worthy(c) && CandidateOf(c) == Candidate(c.key, action, c.sources)
  {
    var n := c.support as real;
    Wilson.DivideBy(n, n, MIN_CLUSTER_AGREEMENT);
    Wilson.DivideBy(n, n, REASON_RECOVERY_HINT);
    assert Agreement(c) == n / n == RecoveryRate(c);
  }

  /** Fifteen observations are a candidate, fewer are none. */
  lemma CandidatesFromPool(d: Case, action: string, n: nat)
    ensures n < MIN_CLUSTER_SUPPORT ==> Candidates(Pool(d, action, n)) == []
    ensures n >= MIN_CLUSTER_SUPPORT ==> Candidates(Pool(d, action, n)) == [PoolCandidate(d, action, n)]
  {
    if n == 0 {
      assert Clustered([], BY_REASON) == [];
    } else {
      PoolIsOneCluster(d, action, n);
      PoolSummarised(ReasonKey(d), d, action, n);
      var c := Summarise(ReasonKey(d), Pool(d, action, n));
      assert Clustered(Pool(d, action, n), BY_REASON) == [c];
      OneCluster(Pool(d, action, n), c);
      if n >= MIN_CLUSTER_SUPPORT { UnanimousIsWorthy(c, action); }
    }
  }

  lemma OneCluster(pool: seq<Observation>, c: Summary)
    ensures CandidatesOf(pool, [c]) == CandidatesFor(pool, c)
  {
    assert [c][..0] == [];
    assert CandidatesOf(pool, []) == [];
  }

  function PoolCandidate(d: Case, action: string, n: nat): Candidate {
    Candidate(ReasonKey(d), action, Summarise(ReasonKey(d), Pool(d, action, n)).sources)
  }

  /** The rule distilled from the first b cases. */
  function Newcomer(base: seq<RuleRow>, d: Case, action: string, b: nat): RuleRow {
    var key := RuleKey(ReasonKey(d));
    RuleRow(key, NextVersion(base, key), Shadow, 50, Suggested(PAYMENT_SCHEMA, ReasonKey(d), action),
            Born(PoolCandidate(d, action, b), b))
  }

  function Echoed(d: Case, action: string): Rule { Compiled(PAYMENT_SCHEMA, ReasonKey(d), action) }

  lemma EchoedMatchesReason(d: Case, action: string, c: Case)
    ensures Matches(Echoed(d, action), ContextOf(c)) <==> c.reason == d.reason
  {
    var rule := Echoed(d, action);
    assert rule.precondition == [Predicate("failure_reason", Eq, Str(d.reason))];
    assert Holds(rule.precondition[0], ContextOf(c)) <==> c.reason == d.reason;
  }

  /** The new rule, as it loads whatever status it has by then. */
  function Loaded(base: seq<RuleRow>, d: Case, action: string, b: nat, status: RuleStatus, p: Provenance): LoadedRule {
    var row := Newcomer(base, d, action, b);
    LoadedRule(row.key, row.version, status, 50, Echoed(d, action), p)
  }

  lemma NewcomerLoads(base: seq<RuleRow>, d: Case, action: string, b: nat, status: RuleStatus, p: Provenance)
    requires d.reason in REASONS && action in RIVALS
    ensures Load(Newcomer(base, d, action, b).(status := status, provenance := p), PAYMENT_SCHEMA)
         == Some(Loaded(base, d, action, b, status, p))
  {
    SuggestionParses(ReasonKey(d), action);
  }

  // ---------------------------------------------------------------- which rules are watched

  lemma HandWrittenUnwatched(rows: seq<RuleRow>, status: RuleStatus)
    requires HandWritten(rows)
    ensures DistilledRules(rows, status) == []
  {
    if DistilledRules(rows, status) != [] {
      DistilledRulesAreRows(rows, status, DistilledRules(rows, status)[0]);
    }
  }

  lemma {:induction false} InsertedAmongHandWritten(rules: seq<LoadedRule>, r: LoadedRule)
    requires OnlyDistilled(rules) == [] && IsDistilled(r)
    ensures OnlyDistilled(Insert(rules, r)) == [r]
  {
    if rules == [] {
      assert [r][1..] == [];
    } else if rules[0].priority <= r.priority {
      InsertedAmongHandWritten(rules[1..], r);
      assert ([rules[0]] + Insert(rules[1..], r))[1..] == Insert(rules[1..], r);
    } else {
      assert ([r] + rules)[1..] == rules;
    }
  }

  /** Behind hand-written rules, one distilled row is all there is to watch. */
  lemma WatchedAlone(base: seq<RuleRow>, row: RuleRow, status: RuleStatus)
    requires HandWritten(base) && RowDistilled(row) && Load(row, PAYMENT_SCHEMA).Some?
    ensures DistilledRules(base + [row], status) ==
            if row.status == status then [Load(row, PAYMENT_SCHEMA).value] else []
  {
    HandWrittenUnwatched(base, status);
    assert (base + [row])[..|base|] == base;
    if row.status == status {
      InsertedAmongHandWritten(ListByStatus(base, status, PAYMENT_SCHEMA), Load(row, PAYMENT_SCHEMA).value);
    }
  }

  lemma SweepNone(u: Setup, s: State, pass: Pass)
    requires ValidSetup(u)
    ensures Sweep(u, s, pass, []) == s
  {
  }

  lemma SweepOne(u: Setup, s: State, pass: Pass, r: LoadedRule)
    requires ValidSetup(u)
    ensures Sweep(u, s, pass, [r]) == Touch(u, s, pass, r)
  {
    assert [r][..0] == [];
    SweepNone(u, s, pass);
  }

  // ---------------------------------------------------------------- gathering

  /** What the runs below start from: a case of a known reason that no hand-written rule decides, and an agent
      that takes one of two actions. */
  ghost predicate Feeds(u: Setup, base: seq<RuleRow>, d: Case, action: string) {
    && SourcePolicy(u) && HandWritten(base) && action in RIVALS
    && d.reason in REASONS && Decided(base, d).None?
  }

  function Gathered(base: seq<RuleRow>, d: Case, action: string, n: nat): State {
    Start(base).(pool := Pool(d, action, n), clock := n, casesSeen := n)
  }

  function HandledOn(d: Case, action: string): Handled {
    Handled(ContextOf(d), Some(action), true, true, d.paymentId)
  }

  lemma OneMoreInPool(d: Case, action: string, n: nat, k: nat)
    requires k == n + 1
    ensures Pooled(Pool(d, action, n), HandledOn(Nth(d, n), action)) == Pool(d, action, k)
  {
    PoolSnoc(d, action, n, k);
    PooledOn(Pool(d, action, n), Nth(d, n), action);
  }

  lemma PoolSnoc(d: Case, action: string, n: nat, k: nat)
    requires k == n + 1
    ensures Pool(d, action, k) == Pool(d, action, n) + [ObservationOn(Nth(d, n), action)]
  {
  }

  lemma PooledOn(pool: seq<Observation>, d: Case, action: string)
    ensures Pooled(pool, HandledOn(d, action)) == pool + [ObservationOn(d, action)]
  {
  }

  /** `k` is one case after `n`. */
  lemma GatherOne(u: Setup, base: seq<RuleRow>, d: Case, action: string, n: nat, k: nat)
    requires Feeds(u, base, d, action) && k == n + 1
    ensures AfterObserving(Steadfast(action), u, Gathered(base, d, action, n), Nth(d, n))
         == Gathered(base, d, action, k).(casesSeen := n)
  {
    HandWrittenUnwatched(base, Shadow);
    HandWrittenUnwatched(base, Active);
    var s, h := Gathered(base, d, action, n), HandledBy(Steadfast(action), base, Nth(d, n));
    assert ContextOf(Nth(d, n)) == ContextOf(d);
    assert h == HandledOn(Nth(d, n), action);
    OneMoreInPool(d, action, n, k);
    SweepNone(u, s.(pool := Pooled(s.pool, h)), Watch(h));
  }

  /** What counting a case does, on the cadence and off it. */
  lemma StepCounts(u: Setup, s: State, c: Case, k: nat)
    requires ValidSetup(u) && k == CasesUpTo(c)
    ensures OnCadence(u.cadence, k) ==>
              Counted(u, s, c) == Demote(u, Promote(u, Distill(u, s.(casesSeen := k))))
    ensures !OnCadence(u.cadence, k) ==> Counted(u, s, c) == s.(casesSeen := k)
  {
  }

  /** Too few observations for a candidate: a step does nothing. */
  lemma QuietStep(u: Setup, base: seq<RuleRow>, d: Case, action: string, n: nat)
    requires Feeds(u, base, d, action) && n < MIN_CLUSTER_SUPPORT
    ensures var s := Gathered(base, d, action, n); Demote(u, Promote(u, Distill(u, s))) == s
  {
    var s := Gathered(base, d, action, n);
    CandidatesFromPool(d, action, n);
    HandWrittenUnwatched(base, Shadow);
    HandWrittenUnwatched(base, Active);
    assert Distill(u, s) == s;
    SweepNone(u, s, Promoting);
    SweepNone(u, s, Demoting);
  }

  /** One case of the run: it is observed, then counted. */
  function Fed(u: Setup, action: string, s: State, c: Case): State
    requires ValidSetup(u)
  {
    Counted(u, AfterObserving(Steadfast(action), u, s, c), c)
  }

  function After(u: Setup, base: seq<RuleRow>, d: Case, action: string, n: nat): State
    requires ValidSetup(u)
  {
    AfterCases(Steadfast(action), u, base, First(d, n))
  }

  lemma AfterOneMore(u: Setup, base: seq<RuleRow>, d: Case, action: string, n: nat, k: nat)
    requires ValidSetup(u) && k == n + 1
    ensures After(u, base, d, action, k) == Fed(u, action, After(u, base, d, action, n), Nth(d, n))
  {
    OneMoreCase(d, n, k);
    AfterSnoc(Steadfast(action), u, base, First(d, n), Nth(d, n));
  }

  /** Until the first step with fifteen cases, observations are gathered and nothing else happens. */
  lemma GatherMore(u: Setup, base: seq<RuleRow>, d: Case, action: string, b: nat, n: nat, k: nat)
    requires Feeds(u, base, d, action) && FirstStep(u.cadence, MIN_CLUSTER_SUPPORT, b) && n < k == n + 1 && k < b
    ensures Fed(u, action, Gathered(base, d, action, n), Nth(d, n)) == Gathered(base, d, action, k)
  {
    GatherOne(u, base, d, action, n, k);
    StepCounts(u, Gathered(base, d, action, k).(casesSeen := n), Nth(d, n), k);
    if OnCadence(u.cadence, k) { QuietStep(u, base, d, action, k); }
  }

  lemma AfterNone(u: Setup, base: seq<RuleRow>, d: Case, action: string)
    requires ValidSetup(u)
    ensures After(u, base, d, action, 0) == Start(base) == Gathered(base, d, action, 0)
  {
    assert First(d, 0) == [];
  }

  lemma {:induction false} Gathering(u: Setup, base: seq<RuleRow>, d: Case, action: string, b: nat, n: nat)
    requires Feeds(u, base, d, action) && FirstStep(u.cadence, MIN_CLUSTER_SUPPORT, b) && n < b
    ensures After(u, base, d, action, n) == Gathered(base, d, action, n)
  {
    if n == 0 {
      AfterNone(u, base, d, action);
    } else {
      var m := n - 1;
      Gathering(u, base, d, action, b, m);
      AfterOneMore(u, base, d, action, m, n);
      GatherMore(u, base, d, action, b, m, n);
    }
  }

  // ---------------------------------------------------------------- shadowing

  /** After n cases, b of them before the rule: the rule is a shadow that has agreed n - b times. */
  function Shadowing(base: seq<RuleRow>, d: Case, action: string, b: nat, n: nat): State
    requires n >= b
  {
    ShadowOf(base, Newcomer(base, d, action, b), d, action, b, n)
  }

  function ShadowOf(base: seq<RuleRow>, row: RuleRow, d: Case, action: string, b: nat, n: nat): State
    requires n >= b
  {
    State(base + [row], Pool(d, action, n), {row.key}, AllGood(row.key, n - b), map[], Log([row.key], [], [], [], 0), n,
        1, n)
  }

  /** Statistics of a rule that has always agreed and recovered. */
  function AllGood(key: string, m: nat): map<string, Stats> {
    if m == 0 then map[] else map[key := Stats(m, m, m)]
  }

  lemma {:induction false} NoWindowNoChange(u: Setup, s: State, rules: seq<LoadedRule>)
    requires ValidSetup(u) && s.recent == map[]
    ensures Sweep(u, s, Demoting, rules) == s
  {
    if rules != [] { NoWindowNoChange(u, s, rules[..|rules| - 1]); }
  }

  lemma DistillOnly(u: Setup, s: State, c: Candidate)
    ensures DistillAll(u, s, [c]) == DistillOne(u, s, c)
  {
    assert [c][..0] == [];
    assert DistillAll(u, s, []) == s;
  }

  lemma EchoAccepted(u: Setup, n: nat, d: Case, action: string)
    requires Echoes(u) && d.reason in REASONS && action in RIVALS
    ensures var suggestion := Suggested(PAYMENT_SCHEMA, ReasonKey(d), action);
            Accepted(u.propose(n, ReasonKey(d), suggestion)) == Some(suggestion)
  {
    SuggestionParses(ReasonKey(d), action);
  }

  /** A new shadow rule in the store. */
  function Adding(s: State, row: RuleRow): State {
    s.(requests := s.requests + 1, created := s.created + {row.key},
        log := s.log.(created := s.log.created + [row.key]),
       rows := s.rows + [row])
  }

  lemma DistillsNew(u: Setup, s: State, c: Candidate, definition: Json)
    requires RuleKey(c.key) !in s.created && "failure_reason" in c.key
    requires Accepted(u.propose(s.requests, c.key, Suggested(PAYMENT_SCHEMA, c.key, c.action))) == Some(definition)
    ensures var key := RuleKey(c.key);
            DistillOne(u, s, c) == Adding(s,
                RuleRow(key, NextVersion(s.rows, key), Shadow, 50, definition, Born(c, s.clock)))
  {
  }

  lemma AddingStartsShadow(base: seq<RuleRow>, row: RuleRow, d: Case, action: string, b: nat)
    ensures Adding(Gathered(base, d, action, b), row) == ShadowOf(base, row, d, action, b, b)
  {
  }

  lemma NewRule(u: Setup, base: seq<RuleRow>, d: Case, action: string, b: nat)
    requires Feeds(u, base, d, action)
    ensures DistillOne(u, Gathered(base, d, action, b), PoolCandidate(d, action, b)) == Shadowing(base, d, action, b, b)
  {
    EchoAccepted(u, 0, d, action);
    DistillsNew(u, Gathered(base, d, action, b), PoolCandidate(d, action, b),
        Suggested(PAYMENT_SCHEMA, ReasonKey(d), action));
    AddingStartsShadow(base, Newcomer(base, d, action, b), d, action, b);
  }

  /** The first step with fifteen cases brings the new rule. */
  lemma Distilled(u: Setup, base: seq<RuleRow>, d: Case, action: string, b: nat)
    requires Feeds(u, base, d, action) && b >= MIN_CLUSTER_SUPPORT
    ensures Distill(u, Gathered(base, d, action, b)) == Shadowing(base, d, action, b, b)
  {
    CandidatesFromPool(d, action, b);
    DistillOnly(u, Gathered(base, d, action, b), PoolCandidate(d, action, b));
    NewRule(u, base, d, action, b);
  }

  /** A candidate whose rule exists brings nothing. */
  lemma DistilledBefore(u: Setup, base: seq<RuleRow>, d: Case, action: string, b: nat, n: nat)
    requires Feeds(u, base, d, action) && MIN_CLUSTER_SUPPORT <= b <= n
    ensures Distill(u, Shadowing(base, d, action, b, n)) == Shadowing(base, d, action, b, n)
  {
    CandidatesFromPool(d, action, n);
    DistillOnly(u, Shadowing(base, d, action, b, n), PoolCandidate(d, action, n));
  }

  lemma ShadowWatched(base: seq<RuleRow>, d: Case, action: string, b: nat)
    requires HandWritten(base) && d.reason in REASONS && action in RIVALS
    ensures var row := Newcomer(base, d, action, b);
            && DistilledRules(base + [row], Shadow) == [Loaded(base, d, action, b, Shadow, row.provenance)]
            && DistilledRules(base + [row], Active) == []
  {
    var row := Newcomer(base, d, action, b);
    NewcomerLoads(base, d, action, b, Shadow, row.provenance);
    WatchedAlone(base, row, Shadow);
    WatchedAlone(base, row, Active);
  }

  /** Short of thirty agreeing matches a step leaves the shadow rule where it is. */
  lemma ShadowStays(u: Setup, base: seq<RuleRow>, d: Case, action: string, b: nat, n: nat)
    requires Feeds(u, base, d, action) && MIN_CLUSTER_SUPPORT <= b <= n < b + 30
    ensures var s := Shadowing(base, d, action, b, n); Demote(u, Promote(u, Distill(u, s))) == s
  {
    var s := Shadowing(base, d, action, b, n);
    DistilledBefore(u, base, d, action, b, n);
    ShadowWatched(base, d, action, b);
    SweepOne(u, s, Promoting, DistilledRules(s.rows, Shadow)[0]);
    assert !Qualifies(u, Get(s.shadow, Newcomer(base, d, action, b).key));
    NoWindowNoChange(u, s, DistilledRules(s.rows, Active));
  }

  /** The case that makes fifteen at a step, seen from the state before it. */
  lemma BirthStep(u: Setup, base: seq<RuleRow>, d: Case, action: string, n: nat, b: nat)
    requires Feeds(u, base, d, action) && MIN_CLUSTER_SUPPORT <= b == n + 1 && OnCadence(u.cadence, b)
    ensures Fed(u, action, Gathered(base, d, action, n), Nth(d, n)) == Shadowing(base, d, action, b, b)
  {
    GatherOne(u, base, d, action, n, b);
    StepCounts(u, Gathered(base, d, action, b).(casesSeen := n), Nth(d, n), b);
    assert Gathered(base, d, action, b).(casesSeen := n).(casesSeen := b) == Gathered(base, d, action, b);
    BirthSweeps(u, base, d, action, b);
  }

  lemma BirthSweeps(u: Setup, base: seq<RuleRow>, d: Case, action: string, b: nat)
    requires Feeds(u, base, d, action) && MIN_CLUSTER_SUPPORT <= b
    ensures Demote(u, Promote(u, Distill(u, Gathered(base, d, action, b)))) == Shadowing(base, d, action, b, b)
  {
    Distilled(u, base, d, action, b);
    ShadowStays(u, base, d, action, b, b);
    DistilledBefore(u, base, d, action, b, b);
  }

  lemma RuleIsBorn(u: Setup, base: seq<RuleRow>, d: Case, action: string, b: nat)
    requires Feeds(u, base, d, action) && FirstStep(u.cadence, MIN_CLUSTER_SUPPORT, b)
    ensures After(u, base, d, action, b) == Shadowing(base, d, action, b, b)
  {
    var n := b - 1;
    Gathering(u, base, d, action, b, n);
    AfterOneMore(u, base, d, action, n, b);
    BirthStep(u, base, d, action, n, b);
  }

  lemma ShadowDecidesNothing(base: seq<RuleRow>, d: Case, action: string, b: nat, c: Case)
    ensures Decided(base + [Newcomer(base, d, action, b)], c) == Decided(base, c)
  {
    ChosenSnoc(base, Newcomer(base, d, action, b), PAYMENT_SCHEMA, ContextOf(c));
  }

  /** What a case leaves behind while the new rule is a shadow: its statistics move, and nothing else the
      distiller keeps about rules. */
  lemma ShadowSweep(u: Setup, base: seq<RuleRow>, d: Case, action: string, b: nat, s: State, h: Handled)
    requires ValidSetup(u) && HandWritten(base) && d.reason in REASONS && action in RIVALS
    requires s.rows == base + [Newcomer(base, d, action, b)] && Matches(Echoed(d, action), h.context)
    ensures var key := Newcomer(base, d, action, b).key;
            Sweep(u, s, Watch(h), Watched(s.rows)) ==
              s.(shadow := s.shadow[key := NextStats(Get(s.shadow, key), Echoed(d, action), h)])
  {
    var r := Loaded(base, d, action, b, Shadow, Newcomer(base, d, action, b).provenance);
    ShadowWatched(base, d, action, b);
    assert Watched(s.rows) == [r];
    SweepOne(u, s, Watch(h), r);
  }

  lemma ShadowHandled(base: seq<RuleRow>, d: Case, action: string, b: nat, n: nat)
    requires Decided(base, d).None?
    ensures HandledBy(Steadfast(action), base + [Newcomer(base, d, action, b)], Nth(d, n))
        == HandledOn(Nth(d, n), action)
  {
    assert ContextOf(Nth(d, n)) == ContextOf(d);
    ShadowDecidesNothing(base, d, action, b, d);
  }

  /** An observation that one shadow rule matches. */
  function Tracked(s: State, key: string, rule: Rule, h: Handled): State {
    s.(pool := Pooled(s.pool, h), clock := s.clock + 1,
       shadow := s.shadow[key := NextStats(Get(s.shadow, key), rule, h)])
  }

  lemma ObserveShadow(u: Setup, base: seq<RuleRow>, d: Case, action: string, b: nat, s: State, h: Handled)
    requires ValidSetup(u) && HandWritten(base) && d.reason in REASONS && action in RIVALS
    requires s.rows == base + [Newcomer(base, d, action, b)] && Matches(Echoed(d, action), h.context)
    ensures Observe(u, s, h) == Tracked(s, Newcomer(base, d, action, b).key, Echoed(d, action), h)
  {
    ShadowSweep(u, base, d, action, b, s.(pool := Pooled(s.pool, h)), h);
  }

  lemma OneMoreAgreement(key: string, d: Case, action: string, h: Handled, m: nat, l: nat)
    requires l == m + 1 && h.action == Some(action) && h.recovered
    ensures AllGood(key, m)[key := NextStats(Get(AllGood(key, m), key), Echoed(d, action), h)] == AllGood(key, l)
  {
  }

  lemma TrackOne(base: seq<RuleRow>, row: RuleRow, d: Case, action: string, b: nat, n: nat, k: nat)
    requires b <= n < k == n + 1
    ensures Tracked(ShadowOf(base, row, d, action, b, n), row.key, Echoed(d, action), HandledOn(Nth(d, n), action))
         == ShadowOf(base, row, d, action, b, k).(casesSeen := n)
  {
    OneMoreInPool(d, action, n, k);
    OneMoreAgreement(row.key, d, action, HandledOn(Nth(d, n), action), n - b, k - b);
  }

  lemma ShadowObserves(u: Setup, base: seq<RuleRow>, d: Case, action: string, b: nat, n: nat, k: nat)
    requires Feeds(u, base, d, action) && b <= n < k == n + 1
    ensures Observe(u, Shadowing(base, d, action, b, n), HandledOn(Nth(d, n), action))
         == Shadowing(base, d, action, b, k).(casesSeen := n)
  {
    var s, h := Shadowing(base, d, action, b, n), HandledOn(Nth(d, n), action);
    EchoedMatchesReason(d, action, Nth(d, n));
    ObserveShadow(u, base, d, action, b, s, h);
    TrackOne(base, Newcomer(base, d, action, b), d, action, b, n, k);
  }

  /** A repeated case still goes to the agent, and the shadow rule agrees with it. */
  lemma ShadowOne(u: Setup, base: seq<RuleRow>, d: Case, action: string, b: nat, n: nat, k: nat)
    requires Feeds(u, base, d, action) && b <= n < k == n + 1
    ensures AfterObserving(Steadfast(action), u, Shadowing(base, d, action, b, n), Nth(d, n))
         == Shadowing(base, d, action, b, k).(casesSeen := n)
  {
    ShadowHandled(base, d, action, b, n);
    ShadowObserves(u, base, d, action, b, n, k);
  }

  /** Until the first step with thirty matches the rule stays a shadow and agrees each time. */
  lemma ShadowMore(u: Setup, base: seq<RuleRow>, d: Case, action: string, b: nat, e: nat, n: nat, k: nat)
    requires Feeds(u, base, d, action) && MIN_CLUSTER_SUPPORT <= b <= n < k == n + 1
    requires FirstStep(u.cadence, b + 30, e) && k < e
    ensures Fed(u, action, Shadowing(base, d, action, b, n), Nth(d, n)) == Shadowing(base, d, action, b, k)
  {
    ShadowOne(u, base, d, action, b, n, k);
    StepCounts(u, Shadowing(base, d, action, b, k).(casesSeen := n), Nth(d, n), k);
    if OnCadence(u.cadence, k) { ShadowStays(u, base, d, action, b, k); }
  }

  lemma {:induction false} ShadowRun(u: Setup, base: seq<RuleRow>, d: Case, action: string, b: nat, e: nat, k: nat)
    requires Feeds(u, base, d, action)
    requires FirstStep(u.cadence, MIN_CLUSTER_SUPPORT, b) && FirstStep(u.cadence, b + 30, e) && b <= k < e
    ensures After(u, base, d, action, k) == Shadowing(base, d, action, b, k)
  {
    if k == b {
      RuleIsBorn(u, base, d, action, b);
    } else {
      var n := k - 1;
      ShadowRun(u, base, d, action, b, e, n);
      AfterOneMore(u, base, d, action, n, k);
      ShadowMore(u, base, d, action, b, e, n, k);
    }
  }

  // ---------------------------------------------------------------- promotion, and what it overrides

  lemma ManyGood(u: Setup, m: nat)
    requires u.promotion == PROMOTION && Rooted(u) && m >= 30
    ensures Qualifies(u, Some(Stats(m, m, m)))
  {
    assert Wilson.IsRoot(u.root(m, m, Wilson.Z95), m, m, Wilson.Z95);
    PromotionIsExact(Stats(m, m, m), u.root(m, m, Wilson.Z95), u.root(m, m, Wilson.Z95));
    assert 625 * m * m >= 625 * 30 * m;
  }

  function Activated(base: seq<RuleRow>, d: Case, action: string, b: nat, e: nat): RuleRow {
    WithStatus(Newcomer(base, d, action, b), Active, e, "")
  }

  lemma OnlyTheNewcomerMoves(base: seq<RuleRow>, d: Case, action: string, b: nat, e: nat)
    ensures var row := Newcomer(base, d, action, b);
            SetStatusIn(base + [row], row.key, row.version, Active, e, "") == base + [Activated(base, d, action, b, e)]
  {
    NextVersionIsAbove(base, Newcomer(base, d, action, b).key);
  }

  lemma TouchPromotes(u: Setup, s: State, r: LoadedRule)
    requires ValidSetup(u) && Qualifies(u, Get(s.shadow, r.key)) && r.rule.action.name in RIVALS
    ensures Touch(u, s, Promoting, r).rows == SetStatusIn(s.rows, r.key, r.version, Active, s.clock, "")
    ensures Touch(u, s, Promoting, r).recent == s.recent
  {
  }

  lemma PromotesShadow(u: Setup, base: seq<RuleRow>, d: Case, action: string, b: nat, e: nat, s: State)
    requires Feeds(u, base, d, action) && Rooted(u) && b + 30 <= e && s == Shadowing(base, d, action, b, e)
    ensures Promote(u, s).rows == base + [Activated(base, d, action, b, e)] && Promote(u, s).recent == map[]
  {
    var row := Newcomer(base, d, action, b);
    var r := Loaded(base, d, action, b, Shadow, row.provenance);
    ShadowWatched(base, d, action, b);
    SweepOne(u, s, Promoting, r);
    EvidenceSuffices(u, base, row, d, action, b, e);
    TouchPromotes(u, s, r);
    OnlyTheNewcomerMoves(base, d, action, b, e);
  }

  lemma EvidenceSuffices(u: Setup, base: seq<RuleRow>, row: RuleRow, d: Case, action: string, b: nat, e: nat)
    requires u.promotion == PROMOTION && Rooted(u) && b + 30 <= e
    ensures Qualifies(u, Get(ShadowOf(base, row, d, action, b, e).shadow, row.key))
  {
    ManyGood(u, e - b);
  }

  /** With thirty agreeing matches or more a step activates the rule. */
  lemma ShadowPromoted(u: Setup, base: seq<RuleRow>, d: Case, action: string, b: nat, e: nat)
    requires Feeds(u, base, d, action) && Rooted(u) && MIN_CLUSTER_SUPPORT <= b && b + 30 <= e
    ensures Demote(u, Promote(u, Distill(u, Shadowing(base, d, action, b, e)))).rows
        == base + [Activated(base, d, action, b, e)]
  {
    var s := Shadowing(base, d, action, b, e);
    DistilledBefore(u, base, d, action, b, e);
    PromotesShadow(u, base, d, action, b, e, s);
    var t := Promote(u, s);
    NoWindowNoChange(u, t, DistilledRules(t.rows, Active));
  }

  lemma PromotionStep(u: Setup, base: seq<RuleRow>, d: Case, action: string, b: nat, n: nat, e: nat)
    requires Feeds(u, base, d, action) && Rooted(u)
    requires MIN_CLUSTER_SUPPORT <= b && b + 30 <= e == n + 1 && OnCadence(u.cadence, e)
    ensures Fed(u, action, Shadowing(base, d, action, b, n), Nth(d, n)).rows
        == base + [Activated(base, d, action, b, e)]
  {
    ShadowOne(u, base, d, action, b, n, e);
    StepCounts(u, Shadowing(base, d, action, b, e).(casesSeen := n), Nth(d, n), e);
    assert Shadowing(base, d, action, b, e).(casesSeen := n).(casesSeen := e) == Shadowing(base, d, action, b, e);
    ShadowPromoted(u, base, d, action, b, e);
  }

  lemma RuleArrives(u: Setup, base: seq<RuleRow>, d: Case, action: string, b: nat, e: nat)
    requires Feeds(u, base, d, action) && Rooted(u)
    requires FirstStep(u.cadence, MIN_CLUSTER_SUPPORT, b) && FirstStep(u.cadence, b + 30, e)
    ensures After(u, base, d, action, e).rows == base + [Activated(base, d, action, b, e)]
  {
    var n := e - 1;
    ShadowRun(u, base, d, action, b, e, n);
    AfterOneMore(u, base, d, action, n, e);
    PromotionStep(u, base, d, action, b, n, e);
  }

  /** The active rule takes over a case of its reason from a rule with a larger priority number. */
  lemma Overtakes(base: seq<RuleRow>, d: Case, action: string, b: nat, e: nat, c: Case)
    requires d.reason in REASONS && action in RIVALS && c.reason == d.reason
    requires Decided(base, c).Some? && Decided(base, c).value.priority > 50
    ensures Decided(base + [Activated(base, d, action, b, e)], c).Some?
    ensures Decided(base + [Activated(base, d, action, b, e)], c).value.rule.action.name == action
  {
    var row := Activated(base, d, action, b, e);
    NewcomerLoads(base, d, action, b, Active, row.provenance);
    EchoedMatchesReason(d, action, c);
    ChosenSnoc(base, row, PAYMENT_SCHEMA, ContextOf(c));
  }

  /** The stream that shows it: a case the rules leave to the agent, often enough to distil and promote a
      rule from it, then one they decide. */
  lemma UnsettledChangesDecisions(u: Setup, possible: iset<Context>, base: seq<RuleRow>, c: Case, d: Case)
    returns (lab: Lab, cases: seq<Case>)
    requires SourcePolicy(u) && Rooted(u) && HandWritten(base)
    requires Alike(possible, c, d) && Decided(base, d).None?
    requires Decided(base, c).Some? && Decided(base, c).value.priority > 50
    ensures ReasonAgent(lab, possible) && Stream(cases) && AllOccur(possible, cases)
    ensures !SameDecisions(lab, u, base, base, cases)
  {
    var action := Rival(Decided(base, c).value.rule.action.name);
    var b := FirstStepExists(u.cadence, MIN_CLUSTER_SUPPORT);
    var e := FirstStepExists(u.cadence, b + 30);
    lab, cases := Steadfast(action), First(d, e) + [Nth(c, e)];
    RepeatedThenOther(possible, d, e, c);
    RuleArrives(u, base, d, action, b, e);
    assert ContextOf(Nth(c, e)) == ContextOf(c);
    Overtakes(base, d, action, b, e, Nth(c, e));
    LastRecord(lab, u, base, cases, e);
  }

  /** A record of the distilled run and of the baseline that differ in the action. */
  lemma LastRecord(lab: Lab, u: Setup, base: seq<RuleRow>, cases: seq<Case>, i: nat)
    requires ValidSetup(u) && i < |cases| && !lab.isControl(cases[i])
    requires ActionTaken(lab, Decided(AfterCases(lab, u, base, cases[..i]).rows, cases[i]), cases[i])
          != ActionTaken(lab, Decided(base, cases[i]), cases[i])
    ensures !SameDecisions(lab, u, base, base, cases)
  {
    RecordAt(lab, u, base, cases, i);
    assert Baseline(lab, base, cases)[i] == RecordOf(lab, base, cases[i]);
  }

  // ---------------------------------------------------------------- a shadow match that disagrees

  lemma TracksDisagreement(s: State, key: string, rule: Rule, h: Handled)
    requires key !in s.shadow && h.action != Some(rule.action.name)
    ensures !AllAgree(Tracked(s, key, rule, h).shadow)
  {
    assert Tracked(s, key, rule, h).shadow[key] == NextStats(None, rule, h);
  }

  lemma FedStats(u: Setup, action: string, s: State, c: Case, t: State)
    requires ValidSetup(u) && t == AfterObserving(Steadfast(action), u, s, c)
    ensures Fed(u, action, s, c).shadow == t.shadow
  {
    CountingKeepsStats(u, t, c);
  }

  /** A shadow rule watches a case the hand-written rules decide otherwise. */
  lemma ShadowDisagrees(u: Setup, base: seq<RuleRow>, d: Case, action: string, b: nat, c: Case)
    requires Feeds(u, base, d, action) && c.reason == d.reason
    requires Decided(base, c).Some? && Decided(base, c).value.rule.action.name != action
    ensures !AllAgree(Fed(u, action, Shadowing(base, d, action, b, b), c).shadow)
  {
    var s, key := Shadowing(base, d, action, b, b), Newcomer(base, d, action, b).key;
    var h := HandledBy(Steadfast(action), s.rows, c);
    ShadowDecidesNothing(base, d, action, b, c);
    EchoedMatchesReason(d, action, c);
    ObserveShadow(u, base, d, action, b, s, h);
    FedStats(u, action, s, c, Observe(u, s, h));
    TracksDisagreement(s, key, Echoed(d, action), h);
  }

  lemma UnevenDisagrees(u: Setup, possible: iset<Context>, base: seq<RuleRow>, c: Case, d: Case)
    returns (lab: Lab, cases: seq<Case>)
    requires SourcePolicy(u) && HandWritten(base)
    requires Alike(possible, c, d) && Decided(base, d).None? && Decided(base, c).Some?
    ensures ReasonAgent(lab, possible) && Stream(cases) && AllOccur(possible, cases)
    ensures !AllAgree(AfterCases(lab, u, base, cases).shadow)
  {
    var action := Rival(Decided(base, c).value.rule.action.name);
    var b := FirstStepExists(u.cadence, MIN_CLUSTER_SUPPORT);
    lab, cases := Steadfast(action), First(d, b) + [Nth(c, b)];
    RepeatedThenOther(possible, d, b, c);
    RuleIsBorn(u, base, d, action, b);
    AfterSnoc(lab, u, base, First(d, b), Nth(c, b));
    assert ContextOf(Nth(c, b)) == ContextOf(c);
    ShadowDisagrees(u, base, d, action, b, Nth(c, b));
  }

  // ---------------------------------------------------------------- the exact conditions

  /** Over every stream the evaluation may be given, with every agent that goes by the reason, on every database
      that holds the hand-written rules alone or has been through such runs before. */
  ghost predicate AlwaysSameDecisions(u: Setup, possible: iset<Context>, base: seq<RuleRow>)
    requires ValidSetup(u)
  {
    forall lab: Lab, rows: seq<RuleRow>, cases: seq<Case> ::
      ReasonAgent(lab, possible) && LeftBehind(lab, possible, base, rows) && Stream(cases)
          && AllOccur(possible, cases) ==>
        SameDecisions(lab, u, base, rows, cases)
  }

  ghost predicate AlwaysAgree(u: Setup, possible: iset<Context>, base: seq<RuleRow>)
    requires ValidSetup(u)
  {
    forall lab: Lab, rows: seq<RuleRow>, cases: seq<Case> ::
      ReasonAgent(lab, possible) && LeftBehind(lab, possible, base, rows) && Stream(cases)
          && AllOccur(possible, cases) ==>
        AllAgree(AfterCases(lab, u, rows, cases).shadow)
  }

  /** For which hand-written rules distillation preserves meaning, whatever the agent does per reason, whatever
      can occur and on whatever stream of it: exactly those of which none behind the distilled rules' priority
      decides only part of a reason. */
  lemma MeaningIsPreservedExactly(u: Setup, possible: iset<Context>, base: seq<RuleRow>)
    requires SourcePolicy(u) && Rooted(u) && HandWritten(base)
    ensures AlwaysSameDecisions(u, possible, base) <==> Settled(possible, base)
  {
    if Settled(possible, base) {
      forall lab: Lab, rows: seq<RuleRow>, cases: seq<Case>
        | ReasonAgent(lab, possible) && LeftBehind(lab, possible, base, rows) && Stream(cases)
            && AllOccur(possible, cases)
        ensures SameDecisions(lab, u, base, rows, cases)
      {
        DistillationPreservesMeaning(lab, u, possible, base, rows, cases);
      }
    } else {
      var c: Case, d: Case :| Alike(possible, c, d) && Decided(base, c).Some? && Decided(base, c).value.priority > 50
                              && Decided(base, d).None?;
      var lab, cases := UnsettledChangesDecisions(u, possible, base, c, d);
      assert LeftBehind(lab, possible, base, base);
    }
  }

  /** For which hand-written rules every shadow match agrees: exactly those that decide all cases of a
      reason or none. */
  lemma ShadowAgreesExactly(u: Setup, possible: iset<Context>, base: seq<RuleRow>)
    requires SourcePolicy(u) && HandWritten(base)
    ensures AlwaysAgree(u, possible, base) <==> Uniform(possible, base)
  {
    if Uniform(possible, base) {
      forall lab: Lab, rows: seq<RuleRow>, cases: seq<Case>
        | ReasonAgent(lab, possible) && LeftBehind(lab, possible, base, rows) && Stream(cases)
            && AllOccur(possible, cases)
        ensures AllAgree(AfterCases(lab, u, rows, cases).shadow)
      {
        ShadowAgrees(lab, u, possible, base, rows, cases);
      }
    } else {
      var c: Case, d: Case :| Alike(possible, c, d) && Decided(base, c).Some? && Decided(base, d).None?;
      var lab, cases := UnevenDisagrees(u, possible, base, c, d);
      assert LeftBehind(lab, possible, base, base);
    }
  }
}
