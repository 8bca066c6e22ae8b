/** Which situations the distiller proposes rules for, read off the pool itself. */
module CandidatesExact {
  import opened Situations
  import opened Clusters
  import opened PaymentRules
  import opened Distillation
  import Wilson

  // ---------------------------------------------------------------- what speaks for a rule

  /** Enough observations for a rule: fifteen, four in five of which took the action and three in five of
      which recovered. */
  predicate Persuasive(obs: seq<Observation>, action: string) {
    && |obs| >= 15
    && 5 * Weight(obs, Took(action)) >= 4 * |obs|
    && 5 * Weight(obs, Recoveries) >= 3 * |obs|
  }

  predicate Backs(obs: seq<Observation>, c: Candidate) {
    Persuasive(obs, c.action) && c.sources == SourceIds(obs)
  }

  /** The observations of one reason speak for the candidate. */
  predicate ByReason(pool: seq<Observation>, c: Candidate) { Backs(Members(pool, BY_REASON, c.key), c) }

  /** Those of the reason speak for no action, though they are enough, and those of its band do. */
  ghost predicate ByBand(pool: seq<Observation>, c: Candidate) {
    var whole := Members(pool, BY_REASON, Project(c.key, BY_REASON));
    && |whole| >= 15 && (forall a :: !Persuasive(whole, a))
    && Backs(Members(pool, BY_REASON_AND_BAND, c.key), c)
  }

  // ---------------------------------------------------------------- one cluster

  lemma {:induction false} TwoActionsFit(obs: seq<Observation>, a: string, b: string)
    requires a != b
    ensures Weight(obs, Took(a)) + Weight(obs, Took(b)) <= |obs|
  {
    if obs != [] { TwoActionsFit(obs[..|obs| - 1], a, b); }
  }

  /** What four in five took, nothing else is taken as often. */
  lemma PersuasiveIsDominant(key: Situation, obs: seq<Observation>, a: string)
    requires obs != [] && 5 * Weight(obs, Took(a)) >= 4 * |obs|
    ensures var counts := Summarise(key, obs).actions; counts != [] && Dominant(counts).action == a
  {
    var counts := Summarise(key, obs).actions;
    SummaryCounts(key, obs, a);
    var d := Dominant(counts).action;
    ActionsListedOnce(key, obs);
    DominantIsCounted(counts);
    DominantIsLargest(counts, a);
    SummaryCounts(key, obs, d);
    if d != a { TwoActionsFit(obs, a, d); }
  }

  lemma RatesInWholes(took: nat, recovered: nat, n: nat)
    requires n > 0
    ensures took as real / n as real >= MIN_CLUSTER_AGREEMENT <==> 5 * took >= 4 * n
    ensures recovered as real / n as real >= REASON_RECOVERY_HINT <==> 5 * recovered >= 3 * n
  {
    Wilson.DivideBy(took as real, n as real, MIN_CLUSTER_AGREEMENT);
    Wilson.DivideBy(recovered as real, n as real, REASON_RECOVERY_HINT);
  }

  lemma WorthyIsPersuasive(key: Situation, obs: seq<Observation>, a: string)
    ensures var c := Summarise(key, obs); Worthy(c) && Dominant(c.actions).action == a <==> Persuasive(obs, a)
  {
    var c := Summarise(key, obs);
    SummaryCounts(key, obs, a);
    if |obs| >= 15 {
      RatesInWholes(DominantCount(c), c.recovered, |obs|);
      if 5 * Weight(obs, Took(a)) >= 4 * |obs| { PersuasiveIsDominant(key, obs, a); }
      if c.actions != [] {
        ActionsListedOnce(key, obs);
        DominantIsCounted(c.actions);
      }
    }
  }

  lemma CandidateOfCluster(key: Situation, obs: seq<Observation>, c: Candidate)
    ensures var s := Summarise(key, obs); Worthy(s) && c == CandidateOf(s) <==> c.key == key && Backs(obs, c)
  {
    WorthyIsPersuasive(key, obs, c.action);
    SummaryKey(key, obs);
    SummaryCounts(key, obs, c.action);
  }

  // ---------------------------------------------------------------- all clusters

  lemma {:induction false} RefinedExactly(cs: seq<Summary>, c: Candidate)
    ensures c in RefinedCandidates(cs) <==> exists i :: 0 <= i < |cs| && Worthy(cs[i]) && c == CandidateOf(cs[i])
  {
    if cs != [] {
      var n := |cs| - 1;
      RefinedExactly(cs[..n], c);
      forall i | 0 <= i < n ensures cs[..n][i] == cs[i] {}
    }
  }

  /** The worthy clusters of some observations are the keys whose members speak for an action. */
  lemma ClusteredExactly(obs: seq<Observation>, names: set<string>, c: Candidate)
    ensures (exists i :: 0 <= i < |Clustered(obs, names)| && Worthy(Clustered(obs, names)[i])
                         && c == CandidateOf(Clustered(obs, names)[i]))
       <==> Backs(Members(obs, names, c.key), c)
  {
    var keys := Keys(obs, names);
    forall i | 0 <= i < |keys|
      ensures Worthy(Clustered(obs, names)[i]) && c == CandidateOf(Clustered(obs, names)[i]) <==>
              c.key == keys[i] && Backs(Members(obs, names, keys[i]), c)
    {
      CandidateOfCluster(keys[i], Members(obs, names, keys[i]), c);
    }
    if Backs(Members(obs, names, c.key), c) {
      NoMembersBeforeKey(obs, names, c.key);
      var i :| 0 <= i < |keys| && keys[i] == c.key;
      assert Worthy(Clustered(obs, names)[i]);
    }
  }

  lemma {:induction false} MembersOfMembers(obs: seq<Observation>, coarse: set<string>, fine: set<string>,
                                            key: Situation)
    requires coarse <= fine
    ensures Members(Members(obs, coarse, Project(key, coarse)), fine, key) == Members(obs, fine, key)
  {
    if obs != [] {
      var init, o := obs[..|obs| - 1], obs[|obs| - 1];
      MembersOfMembers(init, coarse, fine, key);
      ProjectTwice(o.situation, coarse, fine);
      var within := Members(init, coarse, Project(key, coarse));
      MembersSnoc(within, o, fine, key);
      assert within + [] == within;
    }
  }

  lemma NotInOtherCluster(obs: seq<Observation>, coarse: set<string>, fine: set<string>, whole: Situation,
                          key: Situation)
    requires coarse <= fine && Members(Members(obs, coarse, whole), fine, key) != []
    ensures whole == Project(key, coarse)
  {
    var o := Members(Members(obs, coarse, whole), fine, key)[0];
    MembersAreMembers(Members(obs, coarse, whole), fine, key);
    MembersAreMembers(obs, coarse, whole);
    assert o in Members(Members(obs, coarse, whole), fine, key);
    ProjectTwice(o.situation, coarse, fine);
  }

  /** A refined candidate of one reason's cluster. */
  lemma RefinedOfCluster(pool: seq<Observation>, whole: Situation, c: Candidate)
    ensures c in RefinedCandidates(Clustered(Members(pool, BY_REASON, whole), BY_REASON_AND_BAND)) <==>
            whole == Project(c.key, BY_REASON) && Backs(Members(pool, BY_REASON_AND_BAND, c.key), c)
  {
    var members := Members(pool, BY_REASON, whole);
    RefinedExactly(Clustered(members, BY_REASON_AND_BAND), c);
    ClusteredExactly(members, BY_REASON_AND_BAND, c);
    if whole == Project(c.key, BY_REASON) {
      MembersOfMembers(pool, BY_REASON, BY_REASON_AND_BAND, c.key);
    } else if Backs(Members(members, BY_REASON_AND_BAND, c.key), c) {
      NotInOtherCluster(pool, BY_REASON, BY_REASON_AND_BAND, whole, c.key);
    }
  }

  lemma NoneWorthy(pool: seq<Observation>, whole: Situation)
    ensures var members := Members(pool, BY_REASON, whole);
            Worthy(Summarise(whole, members)) <==> exists a :: Persuasive(members, a)
  {
    var members := Members(pool, BY_REASON, whole);
    var s := Summarise(whole, members);
    forall a ensures Worthy(s) && Dominant(s.actions).action == a <==> Persuasive(members, a) {
      WorthyIsPersuasive(whole, members, a);
    }
    if Worthy(s) { assert Persuasive(members, Dominant(s.actions).action); }
  }

  /** What one reason's cluster contributes. */
  lemma CandidatesForReason(pool: seq<Observation>, whole: Situation, c: Candidate)
    ensures c in CandidatesFor(pool, Summarise(whole, Members(pool, BY_REASON, whole))) <==>
            || (c.key == whole && ByReason(pool, c))
            || (whole == Project(c.key, BY_REASON) && ByBand(pool, c))
  {
    var members := Members(pool, BY_REASON, whole);
    SummaryKey(whole, members);
    SummaryCounts(whole, members, c.action);
    NoneWorthy(pool, whole);
    if Worthy(Summarise(whole, members)) {
      CandidateOfCluster(whole, members, c);
    } else {
      RefinedOfCluster(pool, whole, c);
    }
  }

  function Joined<T>(parts: seq<seq<T>>): seq<T> {
    if parts == [] then [] else Joined(parts[..|parts| - 1]) + parts[|parts| - 1]
  }

  lemma {:induction false} InJoined<T>(parts: seq<seq<T>>, x: T)
    ensures x in Joined(parts) <==> exists i :: 0 <= i < |parts| && x in parts[i]
  {
    if parts != [] {
      var init := parts[..|parts| - 1];
      InJoined(init, x);
      forall i | 0 <= i < |init| ensures init[i] == parts[i] {}
    }
  }

  /** What each cluster contributes. */
  function Parts(pool: seq<Observation>, cs: seq<Summary>): seq<seq<Candidate>> {
    if cs == [] then [] else Parts(pool, cs[..|cs| - 1]) + [CandidatesFor(pool, cs[|cs| - 1])]
  }

  lemma {:induction false} PartsAre(pool: seq<Observation>, cs: seq<Summary>)
    ensures |Parts(pool, cs)| == |cs|
    ensures forall i :: 0 <= i < |cs| ==> Parts(pool, cs)[i] == CandidatesFor(pool, cs[i])
  {
    if cs != [] { PartsAre(pool, cs[..|cs| - 1]); }
  }

  lemma {:induction false} CandidatesAreJoined(pool: seq<Observation>, cs: seq<Summary>)
    ensures CandidatesOf(pool, cs) == Joined(Parts(pool, cs))
  {
    if cs != [] {
      var init, last := cs[..|cs| - 1], CandidatesFor(pool, cs[|cs| - 1]);
      CandidatesAreJoined(pool, init);
      assert (Parts(pool, init) + [last])[..|Parts(pool, init)|] == Parts(pool, init);
    }
  }

  /** The candidates are exactly the situations the pool speaks for: a reason whose observations are enough,
      agree on an action and recover; or a reason and band whose observations do, where those of the reason as
      a whole are enough but do not. */
  lemma CandidatesExactly(pool: seq<Observation>, c: Candidate)
    ensures c in Candidates(pool) <==> ByReason(pool, c) || ByBand(pool, c)
  {
    var keys := Keys(pool, BY_REASON);
    var cs := Clustered(pool, BY_REASON);
    CandidatesAreJoined(pool, cs);
    InJoined(Parts(pool, cs), c);
    PartsAre(pool, cs);
    forall i | 0 <= i < |keys|
      ensures c in Parts(pool, cs)[i] <==>
              (c.key == keys[i] && ByReason(pool, c)) || (keys[i] == Project(c.key, BY_REASON) && ByBand(pool, c))
    {
      CandidatesForReason(pool, keys[i], c);
    }
    var found := if ByReason(pool, c) then c.key else Project(c.key, BY_REASON);
    NoMembersBeforeKey(pool, BY_REASON, found);
    if ByReason(pool, c) || ByBand(pool, c) {
      var i :| 0 <= i < |keys| && keys[i] == found;
      assert c in Parts(pool, cs)[i];
    }
  }

  // ---------------------------------------------------------------- so each is backed by a case

  lemma {:induction false} TakenByOne(obs: seq<Observation>, a: string)
    requires Weight(obs, Took(a)) > 0
    ensures exists o :: o in obs && o.action == a
  {
    var n := |obs| - 1;
    if obs[n].action == a {
      assert obs[n] in obs;
    } else {
      TakenByOne(obs[..n], a);
      var o :| o in obs[..n] && o.action == a;
      assert o in obs;
    }
  }

  /** The candidate is backed by an observation of the same reason that took its action. */
  ghost predicate Backed(pool: seq<Observation>, c: Candidate) {
    exists i :: 0 <= i < |pool| && pool[i].action == c.action && "failure_reason" in pool[i].situation
                && Has(c.key, "failure_reason", pool[i].situation["failure_reason"])
  }

  lemma CandidatesAreBacked(pool: seq<Observation>, c: Candidate)
    requires (forall i :: 0 <= i < |pool| ==> "failure_reason" in pool[i].situation) && c in Candidates(pool)
    ensures Backed(pool, c)
  {
    CandidatesExactly(pool, c);
    var names := if ByReason(pool, c) then BY_REASON else BY_REASON_AND_BAND;
    TakenByOne(Members(pool, names, c.key), c.action);
    var o :| o in Members(pool, names, c.key) && o.action == c.action;
    MembersAreMembers(pool, names, c.key);
    var i :| 0 <= i < |pool| && pool[i] == o;
    assert c.key == Project(pool[i].situation, names);
  }
}
