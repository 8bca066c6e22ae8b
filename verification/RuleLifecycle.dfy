/** Every distilled rule's life, over all runs of the distiller: its status only advances, and its
    statistics and window are exact recounts of the observations made since. */
module RuleLifecycle {
  import opened Wrappers
  import opened Rules
  import opened PaymentRules
  import opened Lifecycle
  import opened RuleStore
  import opened Distillation

  // ---------------------------------------------------------------- recounting from the history

  function Matching(rule: Rule, hs: seq<Handled>): seq<Handled> {
    if hs == [] then []
    else
      var last := hs[|hs| - 1];
      Matching(rule, hs[..|hs| - 1]) + if Matches(rule, last.context) then [last] else []
  }

  function AgreeingWith(rule: Rule, hs: seq<Handled>): seq<Handled> {
    if hs == [] then []
    else
      var last := hs[|hs| - 1];
      AgreeingWith(rule, hs[..|hs| - 1]) + if last.action == Some(rule.action.name) then [last] else []
  }

  function Outcomes(hs: seq<Handled>): seq<bool> {
    seq(|hs|, i requires 0 <= i < |hs| => hs[i].recovered)
  }

  /** The statistics a batch recount of `hs` gives a rule; none until something matches. */
  function StatsOver(rule: Rule, hs: seq<Handled>): Option<Stats> {
    var ms := Matching(rule, hs);
    if ms == [] then None else Some(Stats(|ms|, |AgreeingWith(rule, ms)|, CountTrue(Outcomes(ms))))
  }

  /** The last `bound` outcomes among the matching observations of `hs`. */
  function WindowOver(rule: Rule, hs: seq<Handled>, bound: nat): Option<seq<bool>> {
    var ms := Matching(rule, hs);
    if ms == [] then None else Some(LastOf(Outcomes(ms), bound))
  }

  lemma MatchingSnoc(rule: Rule, hs: seq<Handled>, h: Handled)
    ensures Matching(rule, hs + [h]) == Matching(rule, hs) + if Matches(rule, h.context) then [h] else []
  {
    assert (hs + [h])[..|hs|] == hs;
  }

  lemma OutcomesSnoc(hs: seq<Handled>, h: Handled)
    ensures Outcomes(hs + [h]) == Outcomes(hs) + [h.recovered]
    ensures CountTrue(Outcomes(hs + [h])) == CountTrue(Outcomes(hs)) + if h.recovered then 1 else 0
  {
    assert (Outcomes(hs) + [h.recovered])[..|hs|] == Outcomes(hs);
    assert Outcomes(hs + [h]) == Outcomes(hs) + [h.recovered];
  }

  lemma AgreeingSnoc(rule: Rule, hs: seq<Handled>, h: Handled)
    ensures AgreeingWith(rule, hs + [h]) ==
            AgreeingWith(rule, hs) + if h.action == Some(rule.action.name) then [h] else []
  {
    assert (hs + [h])[..|hs|] == hs;
  }

  lemma StatsSnoc(rule: Rule, hs: seq<Handled>, h: Handled)
    ensures StatsOver(rule, hs + [h]) ==
            if Matches(rule, h.context) then Some(NextStats(StatsOver(rule, hs), rule, h)) else StatsOver(rule, hs)
  {
    var ms := Matching(rule, hs);
    MatchingSnoc(rule, hs, h);
    if Matches(rule, h.context) {
      StatsGrow(rule, ms, h);
    } else {
      assert Matching(rule, hs + [h]) == ms;
    }
  }

  lemma StatsGrow(rule: Rule, ms: seq<Handled>, h: Handled)
    ensures Stats(|ms| + 1, |AgreeingWith(rule, ms + [h])|, CountTrue(Outcomes(ms + [h]))) ==
            Recorded(Stats(|ms|, |AgreeingWith(rule, ms)|, CountTrue(Outcomes(ms))), Some(rule.action.name)
                == h.action, h.recovered)
    ensures ms == [] ==> |AgreeingWith(rule, ms)| == 0 && CountTrue(Outcomes(ms)) == 0
  {
    OutcomesSnoc(ms, h);
    AgreeingSnoc(rule, ms, h);
  }

  lemma LastOfSnoc(s: seq<bool>, b: bool, n: nat)
    ensures LastOf(LastOf(s, n) + [b], n) == LastOf(s + [b], n)
  {
  }

  lemma WindowSnoc(rule: Rule, hs: seq<Handled>, h: Handled, bound: nat)
    ensures WindowOver(rule, hs + [h], bound) ==
            if Matches(rule, h.context) then Some(NextWindow(WindowOver(rule, hs, bound), h, bound))
            else WindowOver(rule, hs, bound)
  {
    var ms := Matching(rule, hs);
    MatchingSnoc(rule, hs, h);
    if Matches(rule, h.context) {
      OutcomesSnoc(ms, h);
      LastOfSnoc(Outcomes(ms), h.recovered, bound);
      assert Outcomes([]) == [];
    } else {
      assert Matching(rule, hs + [h]) == ms;
    }
  }

  // ---------------------------------------------------------------- what a rule's state must be

  predicate RowDistilled(row: RuleRow) { row.provenance.origin == "distilled" }

  /** A rule's row, statistics and window, explained by the observations `hs` made so far. */
  ghost predicate Explained(u: Setup, v: RuleView, hs: seq<Handled>)
    requires ValidSetup(u)
  {
    var p := v.row.provenance;
    && ParseRule(v.row.definition, PAYMENT_SCHEMA).Some?
    && p.createdAt <= |hs|
    && var rule := ParseRule(v.row.definition, PAYMENT_SCHEMA).value;
       match v.row.status
       case Shadow =>
         && p.promotedAt.None? && p.demotedAt.None? && p.demotions == []
         && v.stats == StatsOver(rule, hs[p.createdAt..])
         && v.window == None && v.promoted == [] && v.demoted == []
       case Active =>
         && PromotedFairly(u, rule, p, hs) && p.demotedAt.None? && p.demotions == []
         && v.stats == StatsOver(rule, hs[p.createdAt..])
         && v.window == WindowOver(rule, hs[p.promotedAt.value..], u.demotion.minRecent)
         && v.promoted == [StatsOver(rule, hs[p.createdAt..p.promotedAt.value]).value] && v.demoted == []
       case Demoted =>
         && PromotedFairly(u, rule, p, hs) && DemotedFairly(u, rule, p, hs)
         && v.stats == StatsOver(rule, hs[p.createdAt..p.demotedAt.value])
         && v.window == Some([])
         && v.promoted == [StatsOver(rule, hs[p.createdAt..p.promotedAt.value]).value]
         && var last := WindowOver(rule, hs[p.promotedAt.value..p.demotedAt.value], u.demotion.minRecent).value;
            v.demoted == [(CountTrue(last), |last|)]
       case Disabled => false
  }

  /** Promotion came after creation, on statistics that qualified, and not for a high-value refund. */
  ghost predicate PromotedFairly(u: Setup, rule: Rule, p: Provenance, hs: seq<Handled>) {
    && p.promotedAt.Some?
    && p.createdAt <= p.promotedAt.value <= |hs|
    && Promotes(u, StatsOver(rule, hs[p.createdAt..p.promotedAt.value]), rule)
  }

  /** Demotion came once, on a degraded window, after at least `minRecent` matches since promotion. */
  ghost predicate DemotedFairly(u: Setup, rule: Rule, p: Provenance, hs: seq<Handled>)
    requires ValidSetup(u)
  {
    && p.promotedAt.Some? && p.demotedAt.Some?
    && p.promotedAt.value <= p.demotedAt.value <= |hs|
    && p.demotions == [(p.demotedAt.value, DEMOTION_REASON)]
    && Demotes(u, WindowOver(rule, hs[p.promotedAt.value..p.demotedAt.value], u.demotion.minRecent))
    && |Matching(rule, hs[p.promotedAt.value..p.demotedAt.value])| >= u.demotion.minRecent
  }

  function View(s: State, i: nat): RuleView
    requires i < |s.rows|
  {
    var key := s.rows[i].key;
    RuleView(s.rows[i], Get(s.shadow, key), Get(s.recent, key), PromotionsOf(s.log.promoted, key),
        DemotionsOf(s.log.demoted, key))
  }

  function PromotionsOf(log: seq<Promotion>, key: string): seq<Stats> {
    if log == [] then []
    else
      var last := log[|log| - 1];
      PromotionsOf(log[..|log| - 1], key) + if last.key == key then [last.stats] else []
  }

  function DemotionsOf(log: seq<Demotion>, key: string): seq<(nat, nat)> {
    if log == [] then []
    else
      var last := log[|log| - 1];
      DemotionsOf(log[..|log| - 1], key) + if last.key == key then [(last.recovered, last.total)] else []
  }

  /** Nothing is logged of a key nobody created a rule for. */
  lemma {:induction false} UnloggedKey(promoted: seq<Promotion>, demoted: seq<Demotion>, key: string)
    requires forall i :: 0 <= i < |promoted| ==> promoted[i].key != key
    requires forall i :: 0 <= i < |demoted| ==> demoted[i].key != key
    ensures PromotionsOf(promoted, key) == [] && DemotionsOf(demoted, key) == []
    decreases |promoted| + |demoted|
  {
    if promoted != [] { UnloggedKey(promoted[..|promoted| - 1], demoted, key); }
    if demoted != [] { UnloggedKey(promoted, demoted[..|demoted| - 1], key); }
  }

  ghost predicate OneRowPerKey(rows: seq<RuleRow>) {
    forall i, j :: 0 <= i < j < |rows| && RowDistilled(rows[i]) && RowDistilled(rows[j]) ==> rows[i].key != rows[j].key
  }

  ghost predicate KeysCreated(s: State) {
    && s.shadow.Keys <= s.created
    && s.recent.Keys <= s.created
    && LoggedWithin(s, s.created)
    && forall i :: 0 <= i < |s.rows| && RowDistilled(s.rows[i]) ==> s.rows[i].key in s.created
  }

  ghost predicate LoggedWithin(s: State, keys: set<string>) {
    && (forall i :: 0 <= i < |s.log.promoted| ==> s.log.promoted[i].key in keys)
    && (forall i :: 0 <= i < |s.log.demoted| ==> s.log.demoted[i].key in keys)
  }

  ghost predicate AllExplained(u: Setup, s: State, hs: seq<Handled>)
    requires ValidSetup(u)
  {
    forall i :: 0 <= i < |s.rows| && RowDistilled(s.rows[i]) ==> Explained(u, View(s, i), hs)
  }

  ghost predicate Invariant(u: Setup, s: State, hs: seq<Handled>)
    requires ValidSetup(u)
  {
    && s.clock == |hs|
    && UniqueVersions(s.rows) && OneRowPerKey(s.rows) && KeysCreated(s)
    && AllExplained(u, s, hs)
  }

  // ---------------------------------------------------------------- a rule's turn in a sweep

  function TouchView(u: Setup, v: RuleView, pass: Pass, r: LoadedRule, clock: nat): RuleView
    requires ValidSetup(u)
  {
    match pass
    case Watch(h) =>
      if !Matches(r.rule, h.context) then v
      else v.(stats := Some(NextStats(v.stats, r.rule, h)),
              window := if r.status == Active then Some(NextWindow(v.window, h, u.demotion.minRecent)) else v.window)
    case Promoting =>
      if Promotes(u, v.stats, r.rule) then
        v.(row := WithStatus(v.row, Active, clock, ""), promoted := v.promoted + [v.stats.value])
      else v
    case Demoting =>
      if Demotes(u, v.window) then
        v.(row := WithStatus(v.row, Demoted, clock, DEMOTION_REASON), window := Some([]),
           demoted := v.demoted + [(CountTrue(v.window.value), |v.window.value|)])
      else v
  }

  /** What no sweep changes. */
  ghost predicate SameFrame(s: State, t: State) {
    && |t.rows| == |s.rows|
    && t.created == s.created && t.pool == s.pool && t.clock == s.clock && t.requests == s.requests
    && t.casesSeen == s.casesSeen
    && t.log.created == s.log.created && t.log.invalid == s.log.invalid
    && forall i :: 0 <= i < |s.rows| ==> SameIdentity(s.rows[i], t.rows[i])
  }

  predicate SameIdentity(a: RuleRow, b: RuleRow) {
    && a.key == b.key && a.version == b.version && a.priority == b.priority && a.definition == b.definition
    && a.provenance.origin == b.provenance.origin && a.provenance.key == b.provenance.key
    && a.provenance.createdAt == b.provenance.createdAt && a.provenance.sources == b.provenance.sources
  }

  lemma TouchFrame(u: Setup, s: State, pass: Pass, r: LoadedRule)
    requires ValidSetup(u)
    ensures SameFrame(s, Touch(u, s, pass, r))
  {
  }

  lemma {:induction false} SweepFrame(u: Setup, s: State, pass: Pass, rules: seq<LoadedRule>)
    requires ValidSetup(u)
    ensures SameFrame(s, Sweep(u, s, pass, rules))
  {
    if rules != [] {
      SweepFrame(u, s, pass, rules[..|rules| - 1]);
      TouchFrame(u, Sweep(u, s, pass, rules[..|rules| - 1]), pass, rules[|rules| - 1]);
    }
  }

  lemma TouchOtherRow(u: Setup, s: State, pass: Pass, r: LoadedRule, i: nat)
    requires ValidSetup(u) && i < |s.rows| && r.key != s.rows[i].key
    ensures var t, key := Touch(u, s, pass, r), s.rows[i].key;
            && |t.rows| == |s.rows| && t.rows[i] == s.rows[i]
            && Get(t.shadow, key) == Get(s.shadow, key) && Get(t.recent, key) == Get(s.recent, key)
  {
  }

  lemma TouchOther(u: Setup, s: State, pass: Pass, r: LoadedRule, i: nat)
    requires ValidSetup(u) && i < |s.rows| && r.key != s.rows[i].key
    ensures |Touch(u, s, pass, r).rows| == |s.rows| && View(Touch(u, s, pass, r), i) == View(s, i)
  {
    TouchOtherRow(u, s, pass, r, i);
    TouchLogs(u, s, pass, r, s.rows[i].key);
  }

  lemma PromotingLogs(u: Setup, s: State, r: LoadedRule, key: string)
    requires ValidSetup(u)
    ensures var t := Touch(u, s, Promoting, r).log;
            && PromotionsOf(t.promoted, key) == PromotionsOf(s.log.promoted, key)
                 + (if Promotes(u, Get(s.shadow, r.key), r.rule) && r.key == key then [Get(s.shadow, r.key).value]
                    else [])
            && t.demoted == s.log.demoted
  {
    var was := s.log.promoted;
    if Promotes(u, Get(s.shadow, r.key), r.rule) {
      assert (was + [Promotion(r.key, s.shadow[r.key], s.casesSeen)])[..|was|] == was;
    }
  }

  lemma DemotingLogs(u: Setup, s: State, r: LoadedRule, key: string)
    requires ValidSetup(u)
    ensures var t, window := Touch(u, s, Demoting, r).log, Get(s.recent, r.key);
            && DemotionsOf(t.demoted, key) == DemotionsOf(s.log.demoted, key)
                 + (if Demotes(u, window) && r.key == key then [(CountTrue(window.value), |window.value|)] else [])
            && t.promoted == s.log.promoted
  {
    var was := s.log.demoted;
    if Demotes(u, Get(s.recent, r.key)) {
      var window := s.recent[r.key];
      assert (was + [Demotion(r.key, CountTrue(window), |window|, s.casesSeen)])[..|was|] == was;
    }
  }

  lemma TouchLogs(u: Setup, s: State, pass: Pass, r: LoadedRule, key: string)
    requires ValidSetup(u)
    ensures var t := Touch(u, s, pass, r).log;
            && PromotionsOf(t.promoted, key) == PromotionsOf(s.log.promoted, key)
                 + (if pass.Promoting? && Promotes(u, Get(s.shadow, r.key), r.rule) && r.key == key
                    then [Get(s.shadow, r.key).value] else [])
            && DemotionsOf(t.demoted, key) == DemotionsOf(s.log.demoted, key)
                 + (if pass.Demoting? && Demotes(u, Get(s.recent, r.key)) && r.key == key
                    then [(CountTrue(s.recent[r.key]), |s.recent[r.key]|)] else [])
  {
    match pass
    case Watch(_) =>
    case Promoting => PromotingLogs(u, s, r, key);
    case Demoting => DemotingLogs(u, s, r, key);
  }

  lemma TouchOwn(u: Setup, s: State, pass: Pass, r: LoadedRule, i: nat)
    requires ValidSetup(u) && i < |s.rows| && r.key == s.rows[i].key && r.version == s.rows[i].version
    ensures |Touch(u, s, pass, r).rows| == |s.rows|
    ensures View(Touch(u, s, pass, r), i) == TouchView(u, View(s, i), pass, r, s.clock)
  {
    TouchLogs(u, s, pass, r, s.rows[i].key);
  }

  function Only(rules: seq<LoadedRule>, key: string): seq<LoadedRule> {
    if rules == [] then [] else Only(rules[..|rules| - 1], key)
                                + if rules[|rules| - 1].key == key then [rules[|rules| - 1]] else []
  }

  /** A sweep in which a row's rule has no turn leaves its view alone; one turn is one touch. */
  lemma {:induction false} SweepView(u: Setup, s: State, pass: Pass, rules: seq<LoadedRule>, i: nat)
    requires ValidSetup(u) && i < |s.rows|
    requires |Only(rules, s.rows[i].key)| <= 1
    requires forall r :: r in Only(rules, s.rows[i].key) ==> r.version == s.rows[i].version
    ensures |Sweep(u, s, pass, rules).rows| == |s.rows|
    ensures View(Sweep(u, s, pass, rules), i) ==
            var mine := Only(rules, s.rows[i].key);
            if mine == [] then View(s, i) else TouchView(u, View(s, i), pass, mine[0], s.clock)
  {
    if rules != [] {
      var rest, last := rules[..|rules| - 1], rules[|rules| - 1];
      var key := s.rows[i].key;
      SweepFrame(u, s, pass, rest);
      assert forall r :: r in Only(rest, key) ==> r in Only(rules, key);
      SweepView(u, s, pass, rest, i);
      if last.key == key {
        assert last in Only(rules, key);
        assert Only(rest, key) == [];
        TouchOwn(u, Sweep(u, s, pass, rest), pass, last, i);
      } else {
        TouchOther(u, Sweep(u, s, pass, rest), pass, last, i);
      }
    }
  }

  /** Rows no swept rule was loaded from are not written. */
  lemma {:induction false} SweepSpares(u: Setup, s: State, pass: Pass, rules: seq<LoadedRule>, i: nat)
    requires ValidSetup(u) && i < |s.rows|
    requires forall r :: r in rules ==> r.key != s.rows[i].key || r.version != s.rows[i].version
    ensures |Sweep(u, s, pass, rules).rows| == |s.rows| && Sweep(u, s, pass, rules).rows[i] == s.rows[i]
  {
    if rules != [] {
      var rest := rules[..|rules| - 1];
      assert forall r :: r in rest ==> r in rules;
      assert rules[|rules| - 1] in rules;
      SweepSpares(u, s, pass, rest, i);
    }
  }

  lemma {:induction false} SweepKeys(u: Setup, s: State, pass: Pass, rules: seq<LoadedRule>, keys: set<string>)
    requires ValidSetup(u) && s.shadow.Keys <= keys && s.recent.Keys <= keys && LoggedWithin(s, keys)
    requires forall r :: r in rules ==> r.key in keys
    ensures Sweep(u, s, pass, rules).shadow.Keys <= keys && Sweep(u, s, pass, rules).recent.Keys <= keys
    ensures LoggedWithin(Sweep(u, s, pass, rules), keys)
  {
    if rules != [] {
      var rest := rules[..|rules| - 1];
      assert forall r :: r in rest ==> r in rules;
      assert rules[|rules| - 1] in rules;
      SweepKeys(u, s, pass, rest, keys);
    }
  }

  // ---------------------------------------------------------------- which rules get a turn

  lemma {:induction false} OnlyConcat(a: seq<LoadedRule>, b: seq<LoadedRule>, key: string)
    ensures Only(a + b, key) == Only(a, key) + Only(b, key)
  {
    if b == [] {
      assert a + b == a;
    } else {
      var n := |b| - 1;
      assert (a + b)[..|a + b| - 1] == a + b[..n];
      OnlyConcat(a, b[..n], key);
    }
  }

  lemma OnlyFirst(r: LoadedRule, rules: seq<LoadedRule>, key: string)
    ensures Only([r] + rules, key) == (if r.key == key then [r] else []) + Only(rules, key)
  {
    OnlyConcat([r], rules, key);
    assert Only([r], key) == Only([r][..0], key) + if r.key == key then [r] else [];
  }

  function Mine(rules: seq<LoadedRule>, key: string): seq<LoadedRule> { Only(OnlyDistilled(rules), key) }

  lemma MineFirst(r: LoadedRule, rules: seq<LoadedRule>, key: string)
    ensures Mine([r] + rules, key) == (if IsDistilled(r) && r.key == key then [r] else []) + Mine(rules, key)
  {
    assert ([r] + rules)[1..] == rules;
    if IsDistilled(r) { OnlyFirst(r, OnlyDistilled(rules), key); }
    else { assert OnlyDistilled([r] + rules) == OnlyDistilled(rules); }
  }

  lemma {:induction false} MineInsert(rules: seq<LoadedRule>, r: LoadedRule, key: string)
    ensures !(IsDistilled(r) && r.key == key) ==> Mine(Insert(rules, r), key) == Mine(rules, key)
    ensures IsDistilled(r) && r.key == key && Mine(rules, key) == [] ==> Mine(Insert(rules, r), key) == [r]
  {
    if rules == [] {
      MineFirst(r, [], key);
      assert [r] + [] == [r];
    } else {
      assert rules == [rules[0]] + rules[1..];
      MineFirst(rules[0], rules[1..], key);
      if rules[0].priority <= r.priority {
        MineInsert(rules[1..], r, key);
        MineFirst(rules[0], Insert(rules[1..], r), key);
      } else {
        MineFirst(r, rules, key);
      }
    }
  }

  lemma {:induction false} MineAbsent(rows: seq<RuleRow>, status: RuleStatus, key: string)
    requires forall i :: 0 <= i < |rows| && RowDistilled(rows[i]) ==> rows[i].key != key
    ensures Mine(ListByStatus(rows, status, PAYMENT_SCHEMA), key) == []
  {
    if rows != [] {
      var rest, last := rows[..|rows| - 1], rows[|rows| - 1];
      MineAbsent(rest, status, key);
      var loaded := Load(last, PAYMENT_SCHEMA);
      if last.status == status && loaded.Some? {
        MineInsert(ListByStatus(rest, status, PAYMENT_SCHEMA), loaded.value, key);
      }
    }
  }

  /** Of the rules of a status, the distilled one of a row's key is that row, loaded, if it has the status. */
  lemma {:induction false} MineOfRows(rows: seq<RuleRow>, status: RuleStatus, i: nat)
    requires OneRowPerKey(rows) && i < |rows| && RowDistilled(rows[i]) && Load(rows[i], PAYMENT_SCHEMA).Some?
    ensures Mine(ListByStatus(rows, status, PAYMENT_SCHEMA), rows[i].key) ==
            if rows[i].status == status then [Load(rows[i], PAYMENT_SCHEMA).value] else []
  {
    var rest, last, key := rows[..|rows| - 1], rows[|rows| - 1], rows[i].key;
    if i == |rows| - 1 { MineAbsent(rest, status, key); } else { MineOfRows(rest, status, i); }
    var loaded := Load(last, PAYMENT_SCHEMA);
    if last.status == status && loaded.Some? {
      MineInsert(ListByStatus(rest, status, PAYMENT_SCHEMA), loaded.value, key);
    }
  }

  lemma {:induction false} OnlyDistilledHas(rules: seq<LoadedRule>, r: LoadedRule)
    ensures r in OnlyDistilled(rules) <==> r in rules && IsDistilled(r)
  {
    if rules != [] {
      OnlyDistilledHas(rules[1..], r);
      assert rules == [rules[0]] + rules[1..];
    }
  }

  lemma DistilledRulesAreRows(rows: seq<RuleRow>, status: RuleStatus, r: LoadedRule)
    requires r in DistilledRules(rows, status)
    ensures exists i :: 0 <= i < |rows| && RowDistilled(rows[i]) && LoadsAs(rows[i], status, PAYMENT_SCHEMA, r)
  {
    OnlyDistilledHas(ListByStatus(rows, status, PAYMENT_SCHEMA), r);
    ListedExactly(rows, status, PAYMENT_SCHEMA, r);
    var row :| row in rows && LoadsAs(row, status, PAYMENT_SCHEMA, r);
    var i :| 0 <= i < |rows| && rows[i] == row;
    assert RowDistilled(rows[i]);
  }

  // ---------------------------------------------------------------- sweeps keep the invariant

  /** The rules one pass goes through. */
  function RulesOf(s: State, pass: Pass): seq<LoadedRule> {
    match pass
    case Watch(_) => Watched(s.rows)
    case Promoting => DistilledRules(s.rows, Shadow)
    case Demoting => DistilledRules(s.rows, Active)
  }

  predicate HasTurn(pass: Pass, status: RuleStatus) {
    match pass
    case Watch(_) => status == Shadow || status == Active
    case Promoting => status == Shadow
    case Demoting => status == Active
  }

  function Swept(u: Setup, s: State, pass: Pass): State
    requires ValidSetup(u)
  {
    Sweep(u, s, pass, RulesOf(s, pass))
  }

  /** In a pass, each distilled row is touched once if its status gives it a turn, else not at all. */
  lemma PassView(u: Setup, s: State, pass: Pass, i: nat)
    requires ValidSetup(u) && i < |s.rows| && OneRowPerKey(s.rows)
    requires RowDistilled(s.rows[i]) && Load(s.rows[i], PAYMENT_SCHEMA).Some?
    ensures |Swept(u, s, pass).rows| == |s.rows|
    ensures View(Swept(u, s, pass), i) ==
            if HasTurn(pass, s.rows[i].status)
            then TouchView(u, View(s, i), pass, Load(s.rows[i], PAYMENT_SCHEMA).value, s.clock) else View(s, i)
  {
    var row := s.rows[i];
    MineOfRows(s.rows, Shadow, i);
    MineOfRows(s.rows, Active, i);
    OnlyConcat(DistilledRules(s.rows, Shadow), DistilledRules(s.rows, Active), row.key);
    assert Only(RulesOf(s, pass), row.key) ==
           if HasTurn(pass, row.status) then [Load(row, PAYMENT_SCHEMA).value] else [];
    SweepView(u, s, pass, RulesOf(s, pass), i);
  }

  lemma PassRulesAreRows(s: State, pass: Pass, r: LoadedRule)
    requires r in RulesOf(s, pass)
    ensures exists i ::
              0 <= i < |s.rows| && RowDistilled(s.rows[i]) && s.rows[i].key == r.key && s.rows[i].version == r.version
  {
    var status := if r in DistilledRules(s.rows, Shadow) then Shadow else Active;
    assert r in DistilledRules(s.rows, status);
    DistilledRulesAreRows(s.rows, status, r);
    var i :| 0 <= i < |s.rows| && RowDistilled(s.rows[i]) && LoadsAs(s.rows[i], status, PAYMENT_SCHEMA, r);
    assert s.rows[i].key == r.key && s.rows[i].version == r.version;
  }

  /** Rows that were not distilled are never written. */
  lemma PassSpares(u: Setup, s: State, pass: Pass, i: nat)
    requires ValidSetup(u) && i < |s.rows| && UniqueVersions(s.rows) && !RowDistilled(s.rows[i])
    ensures |Swept(u, s, pass).rows| == |s.rows| && Swept(u, s, pass).rows[i] == s.rows[i]
  {
    forall r | r in RulesOf(s, pass)
      ensures r.key != s.rows[i].key || r.version != s.rows[i].version
    {
      PassRulesAreRows(s, pass, r);
    }
    SweepSpares(u, s, pass, RulesOf(s, pass), i);
  }

  lemma PassKeys(u: Setup, s: State, pass: Pass)
    requires ValidSetup(u) && UniqueVersions(s.rows) && OneRowPerKey(s.rows) && KeysCreated(s)
    ensures var t := Swept(u, s, pass);
            SameFrame(s, t) && UniqueVersions(t.rows) && OneRowPerKey(t.rows) && KeysCreated(t)
  {
    SweepFrame(u, s, pass, RulesOf(s, pass));
    forall r | r in RulesOf(s, pass)
      ensures r.key in s.created
    {
      PassRulesAreRows(s, pass, r);
    }
    SweepKeys(u, s, pass, RulesOf(s, pass), s.created);
  }

  // ---------------------------------------------------------------- one rule, one pass

  lemma LongWindow(rule: Rule, hs: seq<Handled>, bound: nat)
    requires WindowOver(rule, hs, bound).Some?
    ensures |WindowOver(rule, hs, bound).value| <= |Matching(rule, hs)|
  {
  }

  /** A slice that ended by now is the same slice after one more observation. */
  lemma SliceStays(hs: seq<Handled>, h: Handled, i: nat, j: nat)
    requires i <= j <= |hs|
    ensures (hs + [h])[i..j] == hs[i..j]
  {
  }

  lemma FairnessStays(u: Setup, rule: Rule, p: Provenance, hs: seq<Handled>, h: Handled)
    requires ValidSetup(u) && PromotedFairly(u, rule, p, hs)
    ensures PromotedFairly(u, rule, p, hs + [h])
    ensures (hs + [h])[p.createdAt..p.promotedAt.value] == hs[p.createdAt..p.promotedAt.value]
    ensures DemotedFairly(u, rule, p, hs) ==>
              && DemotedFairly(u, rule, p, hs + [h])
              && (hs + [h])[p.promotedAt.value..p.demotedAt.value] == hs[p.promotedAt.value..p.demotedAt.value]
  {
    SliceStays(hs, h, p.createdAt, p.promotedAt.value);
    if DemotedFairly(u, rule, p, hs) { SliceStays(hs, h, p.promotedAt.value, p.demotedAt.value); }
  }

  lemma WatchExplainsDemoted(u: Setup, v: RuleView, h: Handled, hs: seq<Handled>)
    requires ValidSetup(u) && Explained(u, v, hs) && v.row.status == Demoted
    ensures Explained(u, v, hs + [h])
  {
    var p, rule := v.row.provenance, ParseRule(v.row.definition, PAYMENT_SCHEMA).value;
    FairnessStays(u, rule, p, hs, h);
    SliceStays(hs, h, p.createdAt, p.demotedAt.value);
  }

  lemma WatchExplainsShadow(u: Setup, v: RuleView, h: Handled, hs: seq<Handled>)
    requires ValidSetup(u) && Explained(u, v, hs) && v.row.status == Shadow
    ensures Explained(u, TouchView(u, v, Watch(h), Load(v.row, PAYMENT_SCHEMA).value, |hs|), hs + [h])
  {
    var p, rule := v.row.provenance, ParseRule(v.row.definition, PAYMENT_SCHEMA).value;
    assert (hs + [h])[p.createdAt..] == hs[p.createdAt..] + [h];
    StatsSnoc(rule, hs[p.createdAt..], h);
  }

  lemma WatchExplainsActive(u: Setup, v: RuleView, h: Handled, hs: seq<Handled>)
    requires ValidSetup(u) && Explained(u, v, hs) && v.row.status == Active
    ensures Explained(u, TouchView(u, v, Watch(h), Load(v.row, PAYMENT_SCHEMA).value, |hs|), hs + [h])
  {
    var p, rule := v.row.provenance, ParseRule(v.row.definition, PAYMENT_SCHEMA).value;
    assert (hs + [h])[p.createdAt..] == hs[p.createdAt..] + [h];
    StatsSnoc(rule, hs[p.createdAt..], h);
    FairnessStays(u, rule, p, hs, h);
    assert (hs + [h])[p.promotedAt.value..] == hs[p.promotedAt.value..] + [h];
    WindowSnoc(rule, hs[p.promotedAt.value..], h, u.demotion.minRecent);
  }

  lemma WatchExplains(u: Setup, v: RuleView, h: Handled, hs: seq<Handled>)
    requires ValidSetup(u) && Explained(u, v, hs)
    ensures Explained(u, if HasTurn(Watch(h), v.row.status)
                         then TouchView(u, v, Watch(h), Load(v.row, PAYMENT_SCHEMA).value, |hs|) else v, hs + [h])
  {
    match v.row.status
    case Shadow => WatchExplainsShadow(u, v, h, hs);
    case Active => WatchExplainsActive(u, v, h, hs);
    case Demoted => WatchExplainsDemoted(u, v, h, hs);
    case Disabled => assert false;
  }

  lemma PromotingExplains(u: Setup, v: RuleView, hs: seq<Handled>)
    requires ValidSetup(u) && Explained(u, v, hs) && v.row.status == Shadow
    ensures Explained(u, TouchView(u, v, Promoting, Load(v.row, PAYMENT_SCHEMA).value, |hs|), hs)
  {
    var p := v.row.provenance;
    assert hs[p.createdAt..|hs|] == hs[p.createdAt..];
    assert hs[|hs|..] == [];
  }

  lemma DemotingExplains(u: Setup, v: RuleView, hs: seq<Handled>)
    requires ValidSetup(u) && Explained(u, v, hs) && v.row.status == Active
    ensures Explained(u, TouchView(u, v, Demoting, Load(v.row, PAYMENT_SCHEMA).value, |hs|), hs)
  {
    var p, rule := v.row.provenance, ParseRule(v.row.definition, PAYMENT_SCHEMA).value;
    var q := p.promotedAt.value;
    assert hs[p.createdAt..|hs|] == hs[p.createdAt..];
    assert hs[q..|hs|] == hs[q..];
    if Demotes(u, v.window) { LongWindow(rule, hs[q..], u.demotion.minRecent); }
  }

  // ---------------------------------------------------------------- events keep the invariant

  lemma PassKeepsInvariant(u: Setup, s: State, pass: Pass, hs: seq<Handled>)
    requires ValidSetup(u) && Invariant(u, s, hs) && !pass.Watch?
    ensures Invariant(u, Swept(u, s, pass), hs)
  {
    PassKeys(u, s, pass);
    var t := Swept(u, s, pass);
    forall i | 0 <= i < |t.rows| && RowDistilled(t.rows[i])
      ensures Explained(u, View(t, i), hs)
    {
      assert RowDistilled(s.rows[i]);
      PassView(u, s, pass, i);
      if HasTurn(pass, s.rows[i].status) {
        if pass.Promoting? { PromotingExplains(u, View(s, i), hs); } else { DemotingExplains(u, View(s, i), hs); }
      }
    }
  }

  lemma ObserveKeepsInvariant(u: Setup, s: State, h: Handled, hs: seq<Handled>)
    requires ValidSetup(u) && Invariant(u, s, hs)
    ensures Invariant(u, Observe(u, s, h), hs + [h])
  {
    var s0 := s.(pool := Pooled(s.pool, h));
    PassKeys(u, s0, Watch(h));
    var t := Observe(u, s, h);
    forall i | 0 <= i < |t.rows| && RowDistilled(t.rows[i])
      ensures Explained(u, View(t, i), hs + [h])
    {
      assert RowDistilled(s.rows[i]);
      assert View(s0, i) == View(s, i);
      PassView(u, s0, Watch(h), i);
      WatchExplains(u, View(s, i), h, hs);
    }
  }

  lemma NewRowKeepsKeys(rows: seq<RuleRow>, row: RuleRow)
    requires UniqueVersions(rows) && OneRowPerKey(rows) && row.version == NextVersion(rows, row.key)
    requires forall i :: 0 <= i < |rows| && RowDistilled(rows[i]) ==> rows[i].key != row.key
    ensures UniqueVersions(rows + [row]) && OneRowPerKey(rows + [row])
  {
    NextVersionIsAbove(rows, row.key);
    forall i | 0 <= i < |rows| ensures rows[i].key != row.key || rows[i].version != row.version {}
  }

  lemma NewRowIsCreated(s: State, t: State, row: RuleRow)
    requires KeysCreated(s) && t.rows == s.rows + [row] && t.created == s.created + {row.key}
    requires t.shadow == s.shadow && t.recent == s.recent
    requires t.log.promoted == s.log.promoted && t.log.demoted == s.log.demoted
    ensures KeysCreated(t)
  {
  }

  lemma DistillOneKeepsKeys(u: Setup, s: State, c: Candidate)
    requires UniqueVersions(s.rows) && OneRowPerKey(s.rows) && KeysCreated(s)
    ensures var t := DistillOne(u, s, c);
            && UniqueVersions(t.rows) && OneRowPerKey(t.rows) && KeysCreated(t)
            && s.rows <= t.rows && t.shadow == s.shadow && t.recent == s.recent && t.clock == s.clock
                 && t.pool == s.pool
  {
    var t := DistillOne(u, s, c);
    if |t.rows| > |s.rows| {
      NewRowKeepsKeys(s.rows, t.rows[|s.rows|]);
      NewRowIsCreated(s, t, t.rows[|s.rows|]);
    }
  }

  /** A rule enters as a shadow nobody has statistics about. */
  lemma NewRuleExplained(u: Setup, s: State, c: Candidate, hs: seq<Handled>)
    requires ValidSetup(u) && KeysCreated(s) && s.clock == |hs| && |DistillOne(u, s, c).rows| > |s.rows|
    ensures Explained(u, View(DistillOne(u, s, c), |s.rows|), hs)
  {
    assert hs[|hs|..] == [];
    UnloggedKey(s.log.promoted, s.log.demoted, RuleKey(c.key));
  }

  lemma OldRowsKeepTheirView(u: Setup, s: State, c: Candidate, i: nat)
    requires KeysCreated(s) && i < |s.rows| && RowDistilled(s.rows[i])
    ensures var t := DistillOne(u, s, c); i < |t.rows| && t.rows[i] == s.rows[i] && View(t, i) == View(s, i)
  {
    assert s.rows[i].key in s.created;
  }

  lemma RowsStayExplained(u: Setup, s: State, t: State, hs: seq<Handled>)
    requires ValidSetup(u) && AllExplained(u, s, hs) && |s.rows| <= |t.rows|
    requires forall i :: 0 <= i < |s.rows| ==> t.rows[i] == s.rows[i]
    requires forall i :: 0 <= i < |s.rows| && RowDistilled(s.rows[i]) ==> View(t, i) == View(s, i)
    requires forall i :: |s.rows| <= i < |t.rows| ==> Explained(u, View(t, i), hs)
    ensures AllExplained(u, t, hs)
  {
    forall i | 0 <= i < |t.rows| && RowDistilled(t.rows[i]) ensures Explained(u, View(t, i), hs) {
      if i < |s.rows| { assert Explained(u, View(s, i), hs); }
    }
  }

  lemma DistillOneStaysExplained(u: Setup, s: State, c: Candidate, hs: seq<Handled>)
    requires ValidSetup(u) && KeysCreated(s) && s.clock == |hs| && AllExplained(u, s, hs)
    ensures AllExplained(u, DistillOne(u, s, c), hs)
  {
    var t := DistillOne(u, s, c);
    forall i | 0 <= i < |s.rows| && RowDistilled(s.rows[i]) ensures View(t, i) == View(s, i) {
      OldRowsKeepTheirView(u, s, c, i);
    }
    if |t.rows| > |s.rows| { NewRuleExplained(u, s, c, hs); }
    RowsStayExplained(u, s, t, hs);
  }

  lemma DistillOneKeepsInvariant(u: Setup, s: State, c: Candidate, hs: seq<Handled>)
    requires ValidSetup(u) && Invariant(u, s, hs)
    ensures Invariant(u, DistillOne(u, s, c), hs)
    ensures s.rows <= DistillOne(u, s, c).rows
  {
    DistillOneKeepsKeys(u, s, c);
    DistillOneStaysExplained(u, s, c, hs);
  }

  lemma {:induction false} DistillKeepsInvariant(u: Setup, s: State, cs: seq<Candidate>, hs: seq<Handled>)
    requires ValidSetup(u) && Invariant(u, s, hs)
    ensures Invariant(u, DistillAll(u, s, cs), hs)
    ensures s.rows <= DistillAll(u, s, cs).rows
  {
    if cs != [] {
      DistillKeepsInvariant(u, s, cs[..|cs| - 1], hs);
      DistillOneKeepsInvariant(u, DistillAll(u, s, cs[..|cs| - 1]), cs[|cs| - 1], hs);
    }
  }

  lemma {:induction false} DistillKeepsStats(u: Setup, s: State, cs: seq<Candidate>)
    ensures DistillAll(u, s, cs).shadow == s.shadow && DistillAll(u, s, cs).recent == s.recent
  {
    if cs != [] { DistillKeepsStats(u, s, cs[..|cs| - 1]); }
  }

  lemma {:induction false} DecidingKeepsStats(u: Setup, s: State, pass: Pass, rules: seq<LoadedRule>)
    requires ValidSetup(u) && !pass.Watch?
    ensures Sweep(u, s, pass, rules).shadow == s.shadow
  {
    if rules != [] { DecidingKeepsStats(u, s, pass, rules[..|rules| - 1]); }
  }

  /** Only observations move statistics. */
  lemma StepKeepsStats(u: Setup, s: State, casesSeen: nat)
    requires ValidSetup(u)
    ensures Step(u, s, casesSeen).shadow == s.shadow
  {
    if casesSeen % u.cadence == 0 {
      var t := s.(casesSeen := casesSeen);
      var d := Distill(u, t);
      DistillKeepsStats(u, t, Candidates(t.pool));
      DecidingKeepsStats(u, d, Promoting, DistilledRules(d.rows, Shadow));
      DecidingKeepsStats(u, Promote(u, d), Demoting, DistilledRules(Promote(u, d).rows, Active));
    }
  }

  lemma CasesSeenIsFree(u: Setup, s: State, casesSeen: nat, hs: seq<Handled>)
    requires ValidSetup(u) && Invariant(u, s, hs)
    ensures Invariant(u, s.(casesSeen := casesSeen), hs)
  {
    var t := s.(casesSeen := casesSeen);
    forall i | 0 <= i < |t.rows| && RowDistilled(t.rows[i]) ensures Explained(u, View(t, i), hs) {
      assert View(t, i) == View(s, i);
    }
  }

  lemma StepKeepsInvariant(u: Setup, s: State, casesSeen: nat, hs: seq<Handled>)
    requires ValidSetup(u) && Invariant(u, s, hs)
    ensures Invariant(u, Step(u, s, casesSeen), hs)
  {
    var t := s.(casesSeen := casesSeen);
    CasesSeenIsFree(u, s, casesSeen, hs);
    if casesSeen % u.cadence == 0 {
      DistillKeepsInvariant(u, t, Candidates(t.pool), hs);
      PassKeepsInvariant(u, Distill(u, t), Promoting, hs);
      PassKeepsInvariant(u, Promote(u, Distill(u, t)), Demoting, hs);
    }
  }

  lemma EventKeepsInvariant(u: Setup, s: State, e: Event, hs: seq<Handled>)
    requires ValidSetup(u) && Invariant(u, s, hs)
    ensures Invariant(u, Next(u, s, e), hs + if e.Observing? then [e.h] else [])
  {
    match e
    case Observing(h) => ObserveKeepsInvariant(u, s, h, hs);
    case Stepping(k) =>
      StepKeepsInvariant(u, s, k, hs);
      assert hs + [] == hs;
  }

  /** Over every run from a store without distilled rules, whatever is observed and proposed: each distilled
      rule's timestamps, statistics and window are explained by the observations made. */
  lemma {:induction false} LifecycleHolds(u: Setup, rows: seq<RuleRow>, events: seq<Event>)
    requires ValidSetup(u) && UniqueVersions(rows) && forall i :: 0 <= i < |rows| ==> !RowDistilled(rows[i])
    ensures Invariant(u, Run(u, Start(rows), events), Observed(events))
  {
    if events != [] {
      var n := |events| - 1;
      LifecycleHolds(u, rows, events[..n]);
      EventKeepsInvariant(u, Run(u, Start(rows), events[..n]), events[n], Observed(events[..n]));
    }
  }

  // ---------------------------------------------------------------- statuses only advance

  /** What a step on the cadence makes of a distilled rule's status. */
  function Decision(u: Setup, row: RuleRow, hs: seq<Handled>): RuleStatus
    requires ValidSetup(u) && ParseRule(row.definition, PAYMENT_SCHEMA).Some?
    requires row.provenance.createdAt <= |hs|
    requires row.status == Active ==> row.provenance.promotedAt.Some? && row.provenance.promotedAt.value <= |hs|
  {
    var p, rule := row.provenance, ParseRule(row.definition, PAYMENT_SCHEMA).value;
    if row.status == Shadow && Promotes(u, StatsOver(rule, hs[p.createdAt..]), rule) then Active
    else if row.status == Active && Demotes(u, WindowOver(rule, hs[p.promotedAt.value..], u.demotion.minRecent))
    then Demoted
    else row.status
  }

  /** A step decides every distilled rule it finds on the recounted observations alone: a shadow rule goes
      active exactly when its statistics qualify and it is no high-value refund, an active one is demoted
      exactly when its window has degraded, and nothing else moves. */
  lemma StepDecides(u: Setup, s: State, casesSeen: nat, hs: seq<Handled>, i: nat)
    requires ValidSetup(u) && Invariant(u, s, hs) && i < |s.rows| && RowDistilled(s.rows[i])
    ensures |Step(u, s, casesSeen).rows| >= |s.rows|
    ensures Step(u, s, casesSeen).rows[i].status ==
            if casesSeen % u.cadence == 0 then Decision(u, s.rows[i], hs) else s.rows[i].status
    ensures SameIdentity(s.rows[i], Step(u, s, casesSeen).rows[i])
  {
    assert Explained(u, View(s, i), hs);
    if casesSeen % u.cadence == 0 {
      var t := s.(casesSeen := casesSeen);
      CasesSeenIsFree(u, s, casesSeen, hs);
      DistillKeepsInvariant(u, t, Candidates(t.pool), hs);
      DistillKeepsStats(u, t, Candidates(t.pool));
      var d := Distill(u, t);
      assert View(d, i) == View(s, i);
      PromoteDecides(u, d, hs, i);
      PassKeepsInvariant(u, d, Promoting, hs);
      DemoteDecides(u, Promote(u, d), hs, i);
    }
  }

  lemma PromoteDecides(u: Setup, s: State, hs: seq<Handled>, i: nat)
    requires ValidSetup(u) && Invariant(u, s, hs) && i < |s.rows| && RowDistilled(s.rows[i])
    ensures |Promote(u, s).rows| == |s.rows|
    ensures Explained(u, View(s, i), hs)
    ensures View(Promote(u, s), i) ==
            if s.rows[i].status == Shadow && Promotes(u, View(s, i).stats, Load(s.rows[i], PAYMENT_SCHEMA).value.rule)
            then View(s, i).(row := WithStatus(s.rows[i], Active, s.clock, ""), promoted := [View(s, i).stats.value])
            else View(s, i)
  {
    assert Explained(u, View(s, i), hs);
    PassView(u, s, Promoting, i);
  }

  lemma DemoteDecides(u: Setup, s: State, hs: seq<Handled>, i: nat)
    requires ValidSetup(u) && Invariant(u, s, hs) && i < |s.rows| && RowDistilled(s.rows[i])
    ensures |Demote(u, s).rows| == |s.rows|
    ensures View(Demote(u, s), i).row ==
            if s.rows[i].status == Active && Demotes(u, View(s, i).window)
            then WithStatus(s.rows[i], Demoted, s.clock, DEMOTION_REASON) else s.rows[i]
  {
    assert Explained(u, View(s, i), hs);
    PassView(u, s, Demoting, i);
  }

  predicate Advances(from: RuleStatus, to: RuleStatus) {
    from == to || (from == Shadow && to == Active) || (from == Active && to == Demoted)
  }

  lemma {:induction false} WatchWritesNoRow(u: Setup, s: State, h: Handled, rules: seq<LoadedRule>)
    requires ValidSetup(u)
    ensures Sweep(u, s, Watch(h), rules).rows == s.rows
  {
    if rules != [] { WatchWritesNoRow(u, s, h, rules[..|rules| - 1]); }
  }

  lemma StepSpares(u: Setup, s: State, casesSeen: nat, hs: seq<Handled>, i: nat)
    requires ValidSetup(u) && Invariant(u, s, hs) && i < |s.rows| && !RowDistilled(s.rows[i])
    ensures |Step(u, s, casesSeen).rows| >= |s.rows| && Step(u, s, casesSeen).rows[i] == s.rows[i]
  {
    if casesSeen % u.cadence == 0 {
      var t := s.(casesSeen := casesSeen);
      CasesSeenIsFree(u, s, casesSeen, hs);
      DistillKeepsInvariant(u, t, Candidates(t.pool), hs);
      var d := Distill(u, t);
      PassSpares(u, d, Promoting, i);
      PassKeepsInvariant(u, d, Promoting, hs);
      PassSpares(u, Promote(u, d), Demoting, i);
    }
  }

  /** One event moves each distilled rule at most one place along SHADOW, ACTIVE, DEMOTED, changes nothing
      else that identifies it, and never writes a row that was not distilled. */
  lemma RulesOnlyAdvance(u: Setup, s: State, e: Event, hs: seq<Handled>, i: nat)
    requires ValidSetup(u) && Invariant(u, s, hs) && i < |s.rows|
    ensures |Next(u, s, e).rows| >= |s.rows|
    ensures Advances(s.rows[i].status, Next(u, s, e).rows[i].status)
    ensures SameIdentity(s.rows[i], Next(u, s, e).rows[i])
    ensures !RowDistilled(s.rows[i]) ==> Next(u, s, e).rows[i] == s.rows[i]
  {
    match e
    case Observing(h) => WatchWritesNoRow(u, s.(pool := Pooled(s.pool, h)), h, Watched(s.rows));
    case Stepping(n) =>
      if RowDistilled(s.rows[i]) {
        assert Explained(u, View(s, i), hs);
        StepDecides(u, s, n, hs, i);
      } else {
        StepSpares(u, s, n, hs, i);
      }
  }

  function Rank(status: RuleStatus): nat {
    match status
    case Shadow => 0
    case Active => 1
    case Demoted => 2
    case Disabled => 3
  }

  /** Over any run from any point on: a rule keeps its row and its identity, and its status never goes back,
      so it is activated at most once and demoted at most once. */
  lemma {:induction false} StatusNeverReturns(u: Setup, rows: seq<RuleRow>, events: seq<Event>, n: nat, i: nat)
    requires ValidSetup(u) && UniqueVersions(rows) && forall j :: 0 <= j < |rows| ==> !RowDistilled(rows[j])
    requires n <= |events| && i < |Run(u, Start(rows), events[..n]).rows|
    ensures var was, now := Run(u, Start(rows), events[..n]), Run(u, Start(rows), events);
            && |was.rows| <= |now.rows|
            && SameIdentity(was.rows[i], now.rows[i])
            && Rank(was.rows[i].status) <= Rank(now.rows[i].status)
  {
    if n == |events| {
      assert events[..n] == events;
    } else {
      var init := events[..|events| - 1];
      assert init[..n] == events[..n];
      StatusNeverReturns(u, rows, init, n, i);
      LifecycleHolds(u, rows, init);
      RulesOnlyAdvance(u, Run(u, Start(rows), init), events[|events| - 1], Observed(init), i);
    }
  }
}
