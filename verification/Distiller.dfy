/** The streaming distiller: it mutates its pool, statistics, windows and rule store, and every method does
    to that state what the corresponding function of `Distillation` says. */
module Distiller {
  import opened Wrappers
  import opened Rules
  import opened Situations
  import opened Clusters
  import opened PaymentRules
  import opened Lifecycle
  import opened RuleStore
  import opened Distillation

  class PaymentDistiller {
    const setup: Setup
    const repo: RuleRepository
    var pool: seq<Observation>
    var createdKeys: set<string>
    var shadow: map<string, ShadowStats>
    var recent: map<string, seq<bool>>
    var log: Log
    var casesSeen: nat
    var requests: nat
    var clock: nat

    ghost predicate Valid()
      reads this, repo
    {
      && ValidSetup(setup)
      && repo.schema == PAYMENT_SCHEMA
      && UniqueVersions(repo.rows)
      && forall k, l :: k in shadow && l in shadow && k != l ==> shadow[k] != shadow[l]
    }

    ghost function ShadowModel(): map<string, Stats>
      reads this, shadow.Values
    {
      map k | k in shadow :: shadow[k].Model()
    }

    ghost function Model(): State
      reads this, repo, shadow.Values
    {
      State(repo.rows, pool, createdKeys, ShadowModel(), recent, log, casesSeen, requests, clock)
    }

    constructor (repo: RuleRepository, setup: Setup)
      requires ValidSetup(setup) && repo.schema == PAYMENT_SCHEMA && UniqueVersions(repo.rows)
      ensures this.repo == repo && this.setup == setup
      ensures Valid() && Model() == Start(repo.rows) && shadow == map[]
    {
      this.repo, this.setup := repo, setup;
      pool, createdKeys, shadow, recent, log := [], {}, map[], map[], Log([], [], [], [], 0);
      casesSeen, requests, clock := 0, 0, 0;
    }

    // -------------------------------------------------------------- observation

    method RecordStats(key: string, agreed: bool, recovered: bool)
      requires Valid()
      modifies this`shadow, shadow.Values
      ensures Valid() && fresh(shadow.Values - old(shadow.Values))
      ensures ShadowModel() == old(ShadowModel())[key :=
                Recorded(if key in old(shadow) then old(ShadowModel())[key] else Stats(0, 0, 0), agreed, recovered)]
    {
      if key !in shadow {
        var stats := new ShadowStats();
        shadow := shadow[key := stats];
      }
      shadow[key].Record(agreed, recovered);
    }

    method WatchRule(h: Handled, r: LoadedRule)
      requires Valid()
      modifies this`shadow, this`recent, shadow.Values
      ensures Valid() && fresh(shadow.Values - old(shadow.Values))
      ensures Model() == Touch(setup, old(Model()), Watch(h), r)
    {
      var matches := Evaluate(r.rule, h.context);
      if !matches { return; }
      ghost var s0 := Model();
      RecordStats(r.key, Some(r.rule.action.name) == h.action, h.recovered);
      ghost var s1 := s0.(shadow := s0.shadow[r.key := NextStats(Get(s0.shadow, r.key), r.rule, h)]);
      assert Model() == s1;
      if r.status == Active { PushRecent(r.key, h); }
    }

    method PushRecent(key: string, h: Handled)
      requires Valid()
      modifies this`recent
      ensures Valid()
      ensures Model() == old(Model()).(recent := old(recent)[key := NextWindow(Get(old(recent), key), h,
          setup.demotion.minRecent)])
    {
      recent := recent[key := NextWindow(Get(recent, key), h, setup.demotion.minRecent)];
    }

    /** Records a handled case and updates the statistics of every rule it matches. */
    method Observe(h: Handled)
      requires Valid()
      modifies this, shadow.Values
      ensures Valid() && fresh(shadow.Values - old(shadow.Values))
      ensures Model() == Distillation.Observe(setup, old(Model()), h)
    {
      AddToPool(h);
      WatchRules(h);
      Tick();
    }

    method AddToPool(h: Handled)
      requires Valid()
      modifies this`pool
      ensures Valid()
      ensures Model() == old(Model()).(pool := Pooled(old(pool), h))
    {
      if h.fromAgent && h.action.Some? {
        pool := pool + [Observation(SituationFeatures(h.context), h.action.value, h.recovered, h.source)];
      }
    }

    method Tick()
      requires Valid()
      modifies this`clock
      ensures Valid()
      ensures Model() == old(Model()).(clock := old(clock) + 1)
    {
      clock := clock + 1;
    }

    method WatchRules(h: Handled)
      requires Valid()
      modifies this`shadow, this`recent, shadow.Values
      ensures Valid() && fresh(shadow.Values - old(shadow.Values))
      ensures Model() == Sweep(setup, old(Model()), Watch(h), Watched(repo.rows))
    {
      ghost var s0 := Model();
      var rules := Watched(repo.rows);
      for i := 0 to |rules|
        invariant Valid() && fresh(shadow.Values - old(shadow.Values))
        invariant Model() == Sweep(setup, s0, Watch(h), rules[..i])
      {
        assert rules[..i + 1][..i] == rules[..i];
        WatchRule(h, rules[i]);
      }
      assert rules[..|rules|] == rules;
    }

    /** Distillation, promotion and demotion, on the cadence. */
    method Step(casesSeen: nat)
      requires Valid()
      modifies this, repo
      ensures Valid() && shadow == old(shadow)
      ensures Model() == Distillation.Step(setup, old(Model()), casesSeen)
    {
      ghost var s0 := Model();
      this.casesSeen := casesSeen;
      ghost var s1 := s0.(casesSeen := casesSeen);
      assert Model() == s1;
      if casesSeen % setup.cadence != 0 { return; }
      Distill();
      ghost var s2 := Distillation.Distill(setup, s1);
      assert Model() == s2;
      Promote();
      ghost var s3 := Distillation.Promote(setup, s2);
      assert Model() == s3;
      Demote();
    }

    // -------------------------------------------------------------- distillation

    method Distill()
      requires Valid()
      modifies this, repo
      ensures Valid() && shadow == old(shadow)
      ensures Model() == Distillation.Distill(setup, old(Model()))
    {
      ghost var s0 := Model();
      var candidates := CandidateSituations();
      for i := 0 to |candidates|
        invariant Valid() && shadow == old(shadow)
        invariant Model() == DistillAll(setup, s0, candidates[..i])
      {
        assert candidates[..i + 1][..i] == candidates[..i];
        DistillCandidate(candidates[i]);
      }
      assert candidates[..|candidates|] == candidates;
    }

    method DistillCandidate(c: Candidate)
      requires Valid()
      modifies this, repo
      ensures Valid() && shadow == old(shadow)
      ensures Model() == DistillOne(setup, old(Model()), c)
    {
      var ruleKey := RuleKey(c.key);
      if ruleKey in createdKeys || "failure_reason" !in c.key { return; }
      var definition := Propose(c);
      if definition.None? { return; }
      StoreShadow(ruleKey, definition.value, c);
    }

    method StoreShadow(ruleKey: string, definition: Json, c: Candidate)
      requires Valid() && ParseRule(definition, PAYMENT_SCHEMA).Some?
      modifies this`createdKeys, this`log, repo
      ensures Valid()
      ensures Model() == old(Model()).(
                rows := old(repo.rows)
                        + [RuleRow(ruleKey, NextVersion(old(repo.rows), ruleKey), Shadow, 50, definition,
                          Born(c, clock))],
                created := old(createdKeys) + {ruleKey},
                log := old(log).(created := old(log).created + [ruleKey]))
    {
      var result := repo.AddRule(ruleKey, definition, Shadow, Born(c, clock), 50, None);
      createdKeys := createdKeys + {ruleKey};
      log := log.(created := log.created + [ruleKey]);
    }

    /** Asks the proposer, and validates the whole answer. */
    method Propose(c: Candidate) returns (definition: Option<Json>)
      requires Valid() && "failure_reason" in c.key
      modifies this`requests, this`log
      ensures Valid()
      ensures definition == Accepted(setup.propose(old(requests), c.key, Suggested(PAYMENT_SCHEMA, c.key, c.action)))
      ensures Model() == old(Model()).(
                requests := old(requests) + 1,
                log := if definition.Some? then old(log) else old(log).(invalid := old(log).invalid + 1))
    {
      var response := setup.propose(requests, c.key, Suggested(PAYMENT_SCHEMA, c.key, c.action));
      requests := requests + 1;
      if response.None? || ParseRule(response.value, PAYMENT_SCHEMA).None? {
        log := log.(invalid := log.invalid + 1);
        return None;
      }
      return response;
    }

    method CandidateSituations() returns (candidates: seq<Candidate>)
      ensures candidates == Candidates(pool)
    {
      candidates := [];
      var clusters := Summaries(pool, BY_REASON);
      for i := 0 to |clusters|
        invariant candidates == CandidatesOf(pool, clusters[..i])
      {
        assert clusters[..i + 1][..i] == clusters[..i];
        var found := CandidatesIn(clusters[i]);
        candidates := candidates + found;
      }
      assert clusters[..|clusters|] == clusters;
    }

    /** A reason is worth a rule by itself, or only with more context, or not yet. */
    method CandidatesIn(cluster: Summary) returns (found: seq<Candidate>)
      ensures found == CandidatesFor(pool, cluster)
    {
      if cluster.support < MIN_CLUSTER_SUPPORT { return []; }
      if !Agreeing(cluster) {
        found := Refine(cluster.key);
      } else if RecoveryRate(cluster) >= REASON_RECOVERY_HINT {
        found := [CandidateOf(cluster)];
      } else {
        found := Refine(cluster.key);
      }
    }

    /** The same reason's observations, split further by amount band. */
    method Refine(key: Situation) returns (out: seq<Candidate>)
      ensures out == RefinedCandidates(Clustered(Members(pool, BY_REASON, key), BY_REASON_AND_BAND))
    {
      var subset := OfReason(key);
      var clusters := Summaries(subset, BY_REASON_AND_BAND);
      out := [];
      for i := 0 to |clusters|
        invariant out == RefinedCandidates(clusters[..i])
      {
        assert clusters[..i + 1][..i] == clusters[..i];
        if Worthy(clusters[i]) {
          out := out + [CandidateOf(clusters[i])];
        }
      }
      assert clusters[..|clusters|] == clusters;
    }

    method OfReason(key: Situation) returns (subset: seq<Observation>)
      ensures subset == Members(pool, BY_REASON, key)
    {
      subset := [];
      for i := 0 to |pool|
        invariant subset == Members(pool[..i], BY_REASON, key)
      {
        assert pool[..i + 1] == pool[..i] + [pool[i]];
        MembersSnoc(pool[..i], pool[i], BY_REASON, key);
        if Project(pool[i].situation, BY_REASON) == key { subset := subset + [pool[i]]; }
      }
      assert pool[..|pool|] == pool;
    }

    // -------------------------------------------------------------- promotion and demotion

    method Promote()
      requires Valid()
      modifies this`log, repo
      ensures Valid()
      ensures Model() == Distillation.Promote(setup, old(Model()))
    {
      ghost var s0 := Model();
      var rules := DistilledRules(repo.rows, Shadow);
      for i := 0 to |rules|
        invariant Valid()
        invariant Model() == Sweep(setup, s0, Promoting, rules[..i])
      {
        assert rules[..i + 1][..i] == rules[..i];
        PromoteRule(rules[i]);
      }
      assert rules[..|rules|] == rules;
    }

    method PromoteRule(r: LoadedRule)
      requires Valid()
      modifies this`log, repo
      ensures Valid()
      ensures Model() == Touch(setup, old(Model()), Promoting, r)
    {
      if r.key !in shadow { return; }
      var stats := Stats(shadow[r.key].matched, shadow[r.key].agreed, shadow[r.key].recovered);
      if !Qualifies(setup, Some(stats)) { return; }
      if IsHighValueRefund(r.rule, setup.threshold) {
        if r.key !in log.blocked { log := log.(blocked := log.blocked + [r.key]); }
        return;
      }
      var _ := repo.SetStatus(r.key, r.version, Active, clock, "");
      log := log.(promoted := log.promoted + [Promotion(r.key, stats, casesSeen)]);
    }

    method Demote()
      requires Valid()
      modifies this`log, this`recent, repo
      ensures Valid()
      ensures Model() == Distillation.Demote(setup, old(Model()))
    {
      ghost var s0 := Model();
      var rules := DistilledRules(repo.rows, Active);
      for i := 0 to |rules|
        invariant Valid()
        invariant Model() == Sweep(setup, s0, Demoting, rules[..i])
      {
        assert rules[..i + 1][..i] == rules[..i];
        DemoteRule(rules[i]);
      }
      assert rules[..|rules|] == rules;
    }

    method DemoteRule(r: LoadedRule)
      requires Valid()
      modifies this`log, this`recent, repo
      ensures Valid()
      ensures Model() == Touch(setup, old(Model()), Demoting, r)
    {
      if r.key !in recent { return; }
      var window := recent[r.key];
      if !Demotes(setup, Some(window)) { return; }
      var _ := repo.SetStatus(r.key, r.version, Demoted, clock, DEMOTION_REASON);
      log := log.(demoted := log.demoted + [Demotion(r.key, CountTrue(window), |window|, casesSeen)]);
      recent := recent[r.key := []];
    }
  }
}
