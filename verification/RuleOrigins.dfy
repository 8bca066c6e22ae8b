/** Where distilled rules come from, over every run, and what the distiller's log says of them. */
module RuleOrigins {
  import opened Wrappers
  import opened Rules
  import opened Situations
  import opened PaymentRules
  import opened Lifecycle
  import opened RuleStore
  import opened Distillation
  import opened RuleLifecycle
  import opened CandidatesExact
  import opened Evaluation

  // ---------------------------------------------------------------- the pool

  /** What the agent decided, of some observations. */
  function PoolOf(hs: seq<Handled>): seq<Observation> {
    if hs == [] then []
    else
      var h := hs[|hs| - 1];
      PoolOf(hs[..|hs| - 1])
      + if h.fromAgent && h.action.Some?
        then [Observation(SituationFeatures(h.context), h.action.value, h.recovered, h.source)]
        else []
  }

  lemma PoolSnoc(hs: seq<Handled>, h: Handled)
    ensures PoolOf(hs + [h]) == Pooled(PoolOf(hs), h)
  {
    assert (hs + [h])[..|hs|] == hs;
    assert PoolOf(hs) + [] == PoolOf(hs);
  }

  // ---------------------------------------------------------------- every rule has an origin

  /** The first twenty, or all there are. */
  predicate AtMostTwenty(some: seq<string>, all: seq<string>) {
    some <= all && |some| == if |all| <= 20 then |all| else 20
  }

  /** The pool spoke for the candidate, and the row is what the proposer made of it when asked for the n-th time. */
  ghost predicate MadeOf(u: Setup, pool: seq<Observation>, row: RuleRow, c: Candidate, n: nat) {
    && (ByReason(pool, c) || ByBand(pool, c))
    && "failure_reason" in c.key
    && row.key == RuleKey(c.key) && row.priority == 50 && row.provenance.key == c.key
    && AtMostTwenty(row.provenance.sources, c.sources)
    && Accepted(u.propose(n, c.key, Suggested(PAYMENT_SCHEMA, c.key, c.action))) == Some(row.definition)
  }

  ghost predicate ProposedFrom(u: Setup, pool: seq<Observation>, row: RuleRow) {
    exists c, n :: MadeOf(u, pool, row, c, n)
  }

  /** The row was proposed from what had been observed when it was created. */
  ghost predicate HasOrigin(u: Setup, hs: seq<Handled>, row: RuleRow) {
    && row.provenance.createdAt <= |hs|
    && ProposedFrom(u, PoolOf(hs[..row.provenance.createdAt]), row)
  }

  function DistilledKeys(rows: seq<RuleRow>): seq<string> {
    if rows == [] then []
    else
      var last := rows[|rows| - 1];
      DistilledKeys(rows[..|rows| - 1]) + if RowDistilled(last) then [last.key] else []
  }

  /** The proposer's requests are told: those that led to a rule, in order, and those that did not. */
  predicate RequestsTold(s: State) {
    s.log.created == DistilledKeys(s.rows) && s.requests == |s.log.created| + s.log.invalid
  }

  lemma {:induction false} NoneDistilled(rows: seq<RuleRow>)
    requires forall i :: 0 <= i < |rows| ==> !RowDistilled(rows[i])
    ensures DistilledKeys(rows) == []
  {
    if rows != [] { NoneDistilled(rows[..|rows| - 1]); }
  }

  lemma {:induction false} SameDistilledKeys(a: seq<RuleRow>, b: seq<RuleRow>)
    requires |a| == |b| && forall i :: 0 <= i < |a| ==> SameIdentity(a[i], b[i])
    ensures DistilledKeys(a) == DistilledKeys(b)
  {
    if a != [] { SameDistilledKeys(a[..|a| - 1], b[..|b| - 1]); }
  }

  ghost predicate Traced(u: Setup, s: State, hs: seq<Handled>) {
    && s.pool == PoolOf(hs) && s.clock == |hs| && RequestsTold(s)
    && forall i :: 0 <= i < |s.rows| && RowDistilled(s.rows[i]) ==> HasOrigin(u, hs, s.rows[i])
  }

  lemma OriginStays(u: Setup, hs: seq<Handled>, h: Handled, row: RuleRow)
    requires HasOrigin(u, hs, row)
    ensures HasOrigin(u, hs + [h], row)
  {
    var n := row.provenance.createdAt;
    assert (hs + [h])[..n] == hs[..n];
  }

  lemma SameOrigin(u: Setup, hs: seq<Handled>, a: RuleRow, b: RuleRow)
    requires HasOrigin(u, hs, a) && SameIdentity(a, b)
    ensures HasOrigin(u, hs, b)
  {
    var pool := PoolOf(hs[..a.provenance.createdAt]);
    var c, n :| MadeOf(u, pool, a, c, n);
    assert MadeOf(u, pool, b, c, n);
  }

  lemma SweepKeepsTraced(u: Setup, s: State, pass: Pass, rules: seq<LoadedRule>, hs: seq<Handled>)
    requires ValidSetup(u) && Traced(u, s, hs)
    ensures Traced(u, Sweep(u, s, pass, rules), hs)
  {
    var t := Sweep(u, s, pass, rules);
    SweepFrame(u, s, pass, rules);
    SameDistilledKeys(s.rows, t.rows);
    forall i | 0 <= i < |t.rows| && RowDistilled(t.rows[i]) ensures HasOrigin(u, hs, t.rows[i]) {
      SameOrigin(u, hs, s.rows[i], t.rows[i]);
    }
  }

  lemma ObserveKeepsTraced(u: Setup, s: State, h: Handled, hs: seq<Handled>)
    requires ValidSetup(u) && Traced(u, s, hs)
    ensures Traced(u, Observe(u, s, h), hs + [h])
  {
    PoolSnoc(hs, h);
    var t := Sweep(u, s.(pool := Pooled(s.pool, h)), Watch(h), Watched(s.rows));
    SweepFrame(u, s.(pool := Pooled(s.pool, h)), Watch(h), Watched(s.rows));
    SameDistilledKeys(s.rows, t.rows);
    forall i | 0 <= i < |t.rows| && RowDistilled(t.rows[i]) ensures HasOrigin(u, hs + [h], t.rows[i]) {
      SameOrigin(u, hs, s.rows[i], t.rows[i]);
      OriginStays(u, hs, h, t.rows[i]);
    }
  }

  lemma FirstSources(c: Candidate, now: nat)
    ensures AtMostTwenty(Born(c, now).sources, c.sources)
  {
  }

  lemma NewRowIsTraced(u: Setup, s: State, t: State, hs: seq<Handled>, row: RuleRow, c: Candidate, n: nat)
    requires Traced(u, s, hs) && t.rows == s.rows + [row] && RowDistilled(row)
    requires t.pool == s.pool && t.clock == s.clock && t.requests == s.requests + 1
    requires t.log.created == s.log.created + [row.key] && t.log.invalid == s.log.invalid
    requires row.provenance.createdAt == |hs| && MadeOf(u, s.pool, row, c, n)
    ensures Traced(u, t, hs)
  {
    assert hs[..|hs|] == hs;
    assert t.rows[..|s.rows|] == s.rows;
  }

  lemma DistillOneKeepsTraced(u: Setup, s: State, c: Candidate, hs: seq<Handled>)
    requires Traced(u, s, hs) && (ByReason(s.pool, c) || ByBand(s.pool, c))
    ensures Traced(u, DistillOne(u, s, c), hs)
  {
    var t := DistillOne(u, s, c);
    if |t.rows| > |s.rows| {
      FirstSources(c, s.clock);
      NewRowIsTraced(u, s, t, hs, t.rows[|s.rows|], c, s.requests);
    }
  }

  lemma {:induction false} DistillKeepsTraced(u: Setup, s: State, cs: seq<Candidate>, hs: seq<Handled>)
    requires Traced(u, s, hs) && forall c :: c in cs ==> ByReason(s.pool, c) || ByBand(s.pool, c)
    ensures Traced(u, DistillAll(u, s, cs), hs)
  {
    if cs != [] {
      var init, last := cs[..|cs| - 1], cs[|cs| - 1];
      assert (forall c :: c in init ==> c in cs) && last in cs;
      DistillKeepsTraced(u, s, init, hs);
      DistillOneKeepsTraced(u, DistillAll(u, s, init), last, hs);
    }
  }

  lemma StepKeepsTraced(u: Setup, s: State, casesSeen: nat, hs: seq<Handled>)
    requires ValidSetup(u) && Traced(u, s, hs)
    ensures Traced(u, Step(u, s, casesSeen), hs)
  {
    if casesSeen % u.cadence == 0 {
      var t := s.(casesSeen := casesSeen);
      forall c | c in Candidates(t.pool) ensures ByReason(t.pool, c) || ByBand(t.pool, c) {
        CandidatesExactly(t.pool, c);
      }
      DistillKeepsTraced(u, t, Candidates(t.pool), hs);
      var d := Distill(u, t);
      SweepKeepsTraced(u, d, Promoting, DistilledRules(d.rows, Shadow), hs);
      SweepKeepsTraced(u, Promote(u, d), Demoting, DistilledRules(Promote(u, d).rows, Active), hs);
    }
  }

  /** Over every run: the pool is what the agent decided, and every distilled rule was proposed from the pool of
      its day, which spoke for the situation and the action it was suggested for. */
  lemma {:induction false} RulesHaveOrigins(u: Setup, rows: seq<RuleRow>, events: seq<Event>)
    requires ValidSetup(u) && forall i :: 0 <= i < |rows| ==> !RowDistilled(rows[i])
    ensures Traced(u, Run(u, Start(rows), events), Observed(events))
  {
    if events == [] {
      NoneDistilled(rows);
    } else {
      var init, e := events[..|events| - 1], events[|events| - 1];
      RulesHaveOrigins(u, rows, init);
      match e
      case Observing(h) => ObserveKeepsTraced(u, Run(u, Start(rows), init), h, Observed(init));
      case Stepping(n) =>
        StepKeepsTraced(u, Run(u, Start(rows), init), n, Observed(init));
        assert Observed(init) + [] == Observed(init);
    }
  }

  /** The proposer was asked for the candidate in this pass and gave nothing valid. */
  ghost predicate Declined(u: Setup, c: Candidate, from: nat, to: nat)
    requires "failure_reason" in c.key
  {
    exists n :: from <= n < to && DeclinedAt(u, c, n)
  }

  ghost predicate DeclinedAt(u: Setup, c: Candidate, n: nat)
    requires "failure_reason" in c.key
  {
    Accepted(u.propose(n, c.key, Suggested(PAYMENT_SCHEMA, c.key, c.action))) == None
  }

  lemma OneIsAsked(u: Setup, s: State, c: Candidate)
    requires "failure_reason" in c.key
    ensures var t := DistillOne(u, s, c);
            && s.requests <= t.requests && s.created <= t.created
            && (RuleKey(c.key) in t.created || (t.requests == s.requests + 1 && DeclinedAt(u, c, s.requests)))
  {
  }

  lemma DistillOneGrows(u: Setup, s: State, c: Candidate)
    ensures s.requests <= DistillOne(u, s, c).requests && s.created <= DistillOne(u, s, c).created
  {
  }

  lemma {:induction false} AllGrows(u: Setup, s: State, cs: seq<Candidate>)
    ensures s.requests <= DistillAll(u, s, cs).requests && s.created <= DistillAll(u, s, cs).created
  {
    if cs != [] {
      AllGrows(u, s, cs[..|cs| - 1]);
      DistillOneGrows(u, DistillAll(u, s, cs[..|cs| - 1]), cs[|cs| - 1]);
    }
  }

  ghost predicate Served(u: Setup, c: Candidate, from: nat, t: State)
    requires "failure_reason" in c.key
  {
    RuleKey(c.key) in t.created || Declined(u, c, from, t.requests)
  }

  lemma StaysServed(u: Setup, c: Candidate, from: nat, t: State, later: State)
    requires "failure_reason" in c.key && Served(u, c, from, t)
    requires t.created <= later.created && t.requests <= later.requests
    ensures Served(u, c, from, later)
  {
    if RuleKey(c.key) !in t.created {
      var n :| from <= n < t.requests && DeclinedAt(u, c, n);
      assert from <= n < later.requests && DeclinedAt(u, c, n);
    }
  }

  /** A step leaves no candidate out: each has its rule, or the proposer had nothing valid for it just now. */
  lemma {:induction false} EveryCandidateIsProposed(u: Setup, s: State, cs: seq<Candidate>, c: Candidate)
    requires c in cs && "failure_reason" in c.key
    ensures Served(u, c, s.requests, DistillAll(u, s, cs))
  {
    var init, last := cs[..|cs| - 1], cs[|cs| - 1];
    var before := DistillAll(u, s, init);
    if c == last {
      AllGrows(u, s, init);
      OneIsAsked(u, before, c);
    } else {
      assert cs == init + [last];
      EveryCandidateIsProposed(u, s, init, c);
      DistillOneGrows(u, before, last);
      StaysServed(u, c, s.requests, before, DistillOne(u, before, last));
    }
  }

  lemma SweepsKeepRequests(u: Setup, d: State)
    requires ValidSetup(u)
    ensures Demote(u, Promote(u, d)).created == d.created && Demote(u, Promote(u, d)).requests == d.requests
  {
    SweepFrame(u, d, Promoting, DistilledRules(d.rows, Shadow));
    SweepFrame(u, Promote(u, d), Demoting, DistilledRules(Promote(u, d).rows, Active));
  }

  /** So a step on the cadence serves every situation the pool speaks for. */
  lemma StepServes(u: Setup, s: State, casesSeen: nat, c: Candidate)
    requires ValidSetup(u) && casesSeen % u.cadence == 0 && "failure_reason" in c.key
    requires ByReason(s.pool, c) || ByBand(s.pool, c)
    ensures Served(u, c, s.requests, Step(u, s, casesSeen))
  {
    var t := s.(casesSeen := casesSeen);
    CandidatesExactly(t.pool, c);
    EveryCandidateIsProposed(u, t, Candidates(t.pool), c);
    SweepsKeepRequests(u, Distill(u, t));
    StaysServed(u, c, s.requests, Distill(u, t), Step(u, s, casesSeen));
  }

  // ---------------------------------------------------------------- the decisions in whole numbers

  /** Under the policy as it stands a rule is promoted exactly if its statistics pass the whole-number test and it
      is not a refund without a bound on the amount. */
  lemma PromotesInWholes(u: Setup, s: Stats, rule: Rule)
    requires u.promotion == PROMOTION && Rooted(u) && Consistent(s) && s.matched > 0
    ensures Promotes(u, Some(s), rule) <==>
            && Promotable(s)
            && (rule.action.name == "refund" ==>
                  exists i :: 0 <= i < |rule.precondition| && BoundsAmount(rule.precondition[i], u.threshold))
  {
    PromotionIsExact(s, u.root(s.agreed, s.matched, u.promotion.z), u.root(s.recovered, s.matched, u.promotion.z));
  }

  lemma {:induction false} TrueAtMost(window: seq<bool>)
    ensures CountTrue(window) <= |window|
  {
    if window != [] { TrueAtMost(window[..|window| - 1]); }
  }

  /** And demoted exactly if its window's recoveries fail theirs. */
  lemma DemotesInWholes(u: Setup, window: seq<bool>)
    requires u.demotion == DEMOTION && Rooted(u) && window != []
    ensures Demotes(u, Some(window)) <==> Demotable(CountTrue(window), |window|)
  {
    TrueAtMost(window);
    DemotionIsExact(CountTrue(window), |window|, u.root(CountTrue(window), |window|, u.demotion.z));
  }

  // ---------------------------------------------------------------- every case counts

  function NotControl(lab: Lab, cases: seq<Case>): nat {
    if cases == [] then 0
    else NotControl(lab, cases[..|cases| - 1]) + if lab.isControl(cases[|cases| - 1]) then 0 else 1
  }

  lemma {:induction false} DistillKeepsCounts(u: Setup, s: State, cs: seq<Candidate>)
    ensures DistillAll(u, s, cs).casesSeen == s.casesSeen && DistillAll(u, s, cs).clock == s.clock
  {
    if cs != [] { DistillKeepsCounts(u, s, cs[..|cs| - 1]); }
  }

  lemma StepCounts(u: Setup, s: State, casesSeen: nat)
    requires ValidSetup(u)
    ensures Step(u, s, casesSeen).casesSeen == casesSeen && Step(u, s, casesSeen).clock == s.clock
  {
    if casesSeen % u.cadence == 0 {
      var t := s.(casesSeen := casesSeen);
      var d := Distill(u, t);
      DistillKeepsCounts(u, t, Candidates(t.pool));
      SweepFrame(u, d, Promoting, DistilledRules(d.rows, Shadow));
      SweepFrame(u, Promote(u, d), Demoting, DistilledRules(Promote(u, d).rows, Active));
    }
  }

  lemma ObserveCounts(u: Setup, s: State, h: Handled)
    requires ValidSetup(u)
    ensures Observe(u, s, h).clock == s.clock + 1
  {
    SweepFrame(u, s.(pool := Pooled(s.pool, h)), Watch(h), Watched(s.rows));
  }

  /** In a distilled evaluation every case is counted, and every one outside the held-out group is observed. */
  lemma {:induction false} EveryCaseCounts(lab: Lab, u: Setup, rows: seq<RuleRow>, cases: seq<Case>)
    requires ValidSetup(u)
    ensures var s := AfterCases(lab, u, rows, cases);
            && s.casesSeen == (if cases == [] then 0 else cases[|cases| - 1].index + 1)
            && s.clock == NotControl(lab, cases)
  {
    if cases != [] {
      var init, c := cases[..|cases| - 1], cases[|cases| - 1];
      EveryCaseCounts(lab, u, rows, init);
      var s := AfterCases(lab, u, rows, init);
      if !lab.isControl(c) { ObserveCounts(u, s, HandledBy(lab, s.rows, c)); }
      StepCounts(u, AfterObserving(lab, u, s, c), CasesUpTo(c));
    }
  }
}
