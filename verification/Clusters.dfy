/** Grouping observations by their projected situation. */
module Clusters {
  import opened Situations
  import Lifecycle

  // ---------------------------------------------------------------- one cluster

  datatype Tally = Tally(action: string, count: nat)

  /** `actions` lists each action once, in the order the actions were first seen. */
  datatype Summary = Summary(key: Situation, support: nat, actions: seq<Tally>, recovered: nat, sources: seq<string>)

  predicate Listed(counts: seq<Tally>, action: string) {
    counts != [] && (counts[0].action == action || Listed(counts[1..], action))
  }

  function CountOf(counts: seq<Tally>, action: string): nat {
    if counts == [] then 0
    else if counts[0].action == action then counts[0].count
    else CountOf(counts[1..], action)
  }

  function Bump(counts: seq<Tally>, action: string): seq<Tally> {
    if counts == [] then [Tally(action, 1)]
    else if counts[0].action == action then [Tally(action, counts[0].count + 1)] + counts[1..]
    else [counts[0]] + Bump(counts[1..], action)
  }

  function Added(s: Summary, o: Observation): Summary {
    Summary(s.key, s.support + 1, Bump(s.actions, o.action), s.recovered + (if o.recovered then 1 else 0),
            s.sources + [o.source])
  }

  function Summarise(key: Situation, members: seq<Observation>): Summary {
    if members == [] then Summary(key, 0, [], 0, [])
    else Added(Summarise(key, members[..|members| - 1]), members[|members| - 1])
  }

  /** The most frequent action; the one seen first among equals. */
  function Dominant(counts: seq<Tally>): Tally
    requires counts != []
  {
    if |counts| == 1 then counts[0]
    else
      var rest := Dominant(counts[1..]);
      if counts[0].count >= rest.count then counts[0] else rest
  }

  function DominantCount(s: Summary): nat {
    if s.actions == [] then 0 else Dominant(s.actions).count
  }

  function Agreement(s: Summary): real { Lifecycle.Rate(DominantCount(s), s.support) }

  function RecoveryRate(s: Summary): real { Lifecycle.Rate(s.recovered, s.support) }

  class Cluster {
    const key: Situation
    var support: nat
    var actionCounts: seq<Tally>
    var recoveredCount: nat
    var sourceIds: seq<string>

    function Model(): Summary
      reads this
    {
      Summary(key, support, actionCounts, recoveredCount, sourceIds)
    }

    constructor (key: Situation)
      ensures Model() == Summarise(key, [])
    {
      this.key := key;
      support, actionCounts, recoveredCount, sourceIds := 0, [], 0, [];
    }

    method Add(o: Observation)
      modifies this
      ensures Model() == Added(old(Model()), o)
    {
      support := support + 1;
      actionCounts := Bump(actionCounts, o.action);
      recoveredCount := recoveredCount + if o.recovered then 1 else 0;
      sourceIds := sourceIds + [o.source];
    }
  }

  // ---------------------------------------------------------------- grouping

  function KeyOf(o: Observation, names: set<string>): Situation { Project(o.situation, names) }

  function Members(obs: seq<Observation>, names: set<string>, key: Situation): seq<Observation> {
    if obs == [] then []
    else
      var last := obs[|obs| - 1];
      Members(obs[..|obs| - 1], names, key) + if KeyOf(last, names) == key then [last] else []
  }

  /** The keys that occur, each once, in order of first appearance. */
  function Keys(obs: seq<Observation>, names: set<string>): seq<Situation> {
    if obs == [] then []
    else
      var earlier := Keys(obs[..|obs| - 1], names);
      var key := KeyOf(obs[|obs| - 1], names);
      if key in earlier then earlier else earlier + [key]
  }

  /** The clusters of `obs`: one per key, each the summary of that key's observations. */
  function Clustered(obs: seq<Observation>, names: set<string>): seq<Summary> {
    SummariesFor(obs, names, Keys(obs, names))
  }

  function SummariesFor(obs: seq<Observation>, names: set<string>, keys: seq<Situation>): seq<Summary> {
    seq(|keys|, i requires 0 <= i < |keys| => Summarise(keys[i], Members(obs, names, keys[i])))
  }

  ghost predicate Distinct(keys: seq<Situation>) {
    forall i, j :: 0 <= i < j < |keys| ==> keys[i] != keys[j]
  }

  lemma {:induction false} KeysAreDistinct(obs: seq<Observation>, names: set<string>)
    ensures Distinct(Keys(obs, names))
  {
    if obs != [] { KeysAreDistinct(obs[..|obs| - 1], names); }
  }

  lemma MembersSnoc(obs: seq<Observation>, o: Observation, names: set<string>, key: Situation)
    ensures Members(obs + [o], names, key) == Members(obs, names, key) + if KeyOf(o, names) == key then [o] else []
  {
    assert (obs + [o])[..|obs|] == obs;
  }

  lemma KeysSnoc(obs: seq<Observation>, o: Observation, names: set<string>)
    ensures Keys(obs + [o], names) ==
            if KeyOf(o, names) in Keys(obs, names) then Keys(obs, names) else Keys(obs, names) + [KeyOf(o, names)]
  {
    assert (obs + [o])[..|obs|] == obs;
  }

  lemma SummariseSnoc(key: Situation, members: seq<Observation>, o: Observation)
    ensures Summarise(key, members + [o]) == Added(Summarise(key, members), o)
  {
    assert (members + [o])[..|members|] == members;
  }

  lemma {:induction false} NoMembersBeforeKey(obs: seq<Observation>, names: set<string>, key: Situation)
    ensures key !in Keys(obs, names) ==> Members(obs, names, key) == []
  {
    if obs != [] { NoMembersBeforeKey(obs[..|obs| - 1], names, key); }
  }

  /** The clusters under construction, one per key, each summarising the observations read so far. */
  ghost predicate Summarises(clusters: seq<Cluster>, keys: seq<Situation>, obs: seq<Observation>, names: set<string>)
    reads clusters
  {
    && |clusters| == |keys|
    && (forall i, j :: 0 <= i < j < |clusters| ==> clusters[i] != clusters[j])
    && forall i :: 0 <= i < |clusters| ==> clusters[i].Model() == Summarise(keys[i], Members(obs, names, keys[i]))
  }

  method AddAt(clusters: seq<Cluster>, cluster: Cluster, o: Observation, names: set<string>,
               ghost at: nat, ghost keys: seq<Situation>, ghost obs: seq<Observation>)
    requires Summarises(clusters, keys, obs, names) && Distinct(keys)
    requires at < |clusters| && clusters[at] == cluster && keys[at] == KeyOf(o, names)
    modifies cluster
    ensures Summarises(clusters, keys, obs + [o], names)
  {
    ghost var was := old(cluster.Model());
    cluster.Add(o);
    forall i | 0 <= i < |clusters|
      ensures clusters[i].Model() == Summarise(keys[i], Members(obs + [o], names, keys[i]))
    {
      MembersSnoc(obs, o, names, keys[i]);
      if i == at {
        SummariseSnoc(keys[i], Members(obs, names, keys[i]), o);
      } else {
        assert clusters[i] != cluster && keys[i] != keys[at];
        assert Members(obs + [o], names, keys[i]) == Members(obs, names, keys[i]);
      }
    }
  }

  ghost predicate Indexes(byKey: map<Situation, Cluster>, clusters: seq<Cluster>, keys: seq<Situation>) {
    && |clusters| == |keys|
    && (forall k :: k in byKey <==> k in keys)
    && forall i :: 0 <= i < |keys| ==> byKey[keys[i]] == clusters[i]
  }

  lemma IndexesMore(byKey: map<Situation, Cluster>, clusters: seq<Cluster>, keys: seq<Situation>, key: Situation,
                    c: Cluster)
    requires Indexes(byKey, clusters, keys) && key !in keys
    ensures Indexes(byKey[key := c], clusters + [c], keys + [key])
  {
  }

  /** The cluster for a key not seen before starts empty. */
  method Open(clusters: seq<Cluster>, byKey: map<Situation, Cluster>, key: Situation,
              ghost keys: seq<Situation>, ghost obs: seq<Observation>, names: set<string>)
    returns (more: seq<Cluster>, index: map<Situation, Cluster>)
    requires Summarises(clusters, keys, obs, names) && Indexes(byKey, clusters, keys)
    requires keys == Keys(obs, names) && key !in keys
    ensures Summarises(more, keys + [key], obs, names) && Indexes(index, more, keys + [key])
    ensures |more| == |clusters| + 1 && more[..|clusters|] == clusters && fresh(more[|clusters|])
  {
    NoMembersBeforeKey(obs, names, key);
    var cluster := new Cluster(key);
    IndexesMore(byKey, clusters, keys, key, cluster);
    index := byKey[key := cluster];
    more := clusters + [cluster];
  }

  /** Puts one more observation into the cluster of its key, opening it if need be. */
  method Place(clusters: seq<Cluster>, byKey: map<Situation, Cluster>, o: Observation, names: set<string>,
               ghost seen: seq<Observation>)
    returns (more: seq<Cluster>, index: map<Situation, Cluster>)
    requires Summarises(clusters, Keys(seen, names), seen, names) && Indexes(byKey, clusters, Keys(seen, names))
    modifies clusters
    ensures Summarises(more, Keys(seen + [o], names), seen + [o], names)
    ensures Indexes(index, more, Keys(seen + [o], names))
    ensures forall i :: 0 <= i < |more| ==> more[i] in clusters || fresh(more[i])
  {
    var key := Project(o.situation, names);
    KeysSnoc(seen, o, names);
    KeysAreDistinct(seen + [o], names);
    more, index := OpenIfNew(clusters, byKey, key, Keys(seen, names), seen, names);
    AddToKey(more, index, o, names, Keys(seen + [o], names), seen);
  }

  method OpenIfNew(clusters: seq<Cluster>, byKey: map<Situation, Cluster>, key: Situation,
                   ghost keys: seq<Situation>, ghost obs: seq<Observation>, names: set<string>)
    returns (more: seq<Cluster>, index: map<Situation, Cluster>)
    requires Summarises(clusters, keys, obs, names) && Indexes(byKey, clusters, keys) && keys == Keys(obs, names)
    ensures var all := if key in keys then keys else keys + [key];
            Summarises(more, all, obs, names) && Indexes(index, more, all)
    ensures forall i :: 0 <= i < |more| ==> more[i] in clusters || fresh(more[i])
  {
    more, index := clusters, byKey;
    if key !in byKey {
      more, index := Open(clusters, byKey, key, keys, obs, names);
      assert forall i :: 0 <= i < |clusters| ==> more[i] == more[..|clusters|][i];
    }
  }

  method AddToKey(clusters: seq<Cluster>, byKey: map<Situation, Cluster>, o: Observation, names: set<string>,
                  ghost keys: seq<Situation>, ghost seen: seq<Observation>)
    requires Summarises(clusters, keys, seen, names) && Indexes(byKey, clusters, keys) && Distinct(keys)
    requires KeyOf(o, names) in keys
    modifies clusters
    ensures Summarises(clusters, keys, seen + [o], names)
  {
    var key := Project(o.situation, names);
    ghost var at :| 0 <= at < |keys| && keys[at] == key;
    assert clusters[at] in clusters;
    AddAt(clusters, byKey[key], o, names, at, keys, seen);
  }

  method ClusterObservations(obs: seq<Observation>, names: set<string>) returns (clusters: seq<Cluster>)
    ensures |clusters| == |Clustered(obs, names)|
    ensures forall i :: 0 <= i < |clusters| ==> fresh(clusters[i])
    ensures forall i :: 0 <= i < |clusters| ==> clusters[i].Model() == Clustered(obs, names)[i]
  {
    clusters := [];
    var byKey: map<Situation, Cluster> := map[];
    for n := 0 to |obs|
      invariant Summarises(clusters, Keys(obs[..n], names), obs[..n], names)
      invariant Indexes(byKey, clusters, Keys(obs[..n], names))
      invariant forall i :: 0 <= i < |clusters| ==> fresh(clusters[i])
    {
      assert obs[..n + 1] == obs[..n] + [obs[n]];
      clusters, byKey := Place(clusters, byKey, obs[n], names, obs[..n]);
    }
    assert obs[..|obs|] == obs;
  }

  /** What the clusters of `obs` say, read off one by one. */
  method Summaries(obs: seq<Observation>, names: set<string>) returns (summaries: seq<Summary>)
    ensures summaries == Clustered(obs, names)
  {
    var clusters := ClusterObservations(obs, names);
    summaries := [];
    for i := 0 to |clusters|
      invariant summaries == Clustered(obs, names)[..i]
    {
      summaries := summaries + [clusters[i].Model()];
    }
  }

  // ---------------------------------------------------------------- conservation

  /** What may be counted per observation. */
  datatype Measure = Each | Took(action: string) | Recoveries

  function Amount(m: Measure, o: Observation): nat {
    match m
    case Each => 1
    case Took(a) => if o.action == a then 1 else 0
    case Recoveries => if o.recovered then 1 else 0
  }

  function Weight(obs: seq<Observation>, m: Measure): nat {
    if obs == [] then 0 else Weight(obs[..|obs| - 1], m) + Amount(m, obs[|obs| - 1])
  }

  function SourceIds(obs: seq<Observation>): seq<string> {
    seq(|obs|, i requires 0 <= i < |obs| => obs[i].source)
  }

  lemma {:induction false} BumpCounts(counts: seq<Tally>, action: string, a: string)
    ensures CountOf(Bump(counts, action), a) == CountOf(counts, a) + if a == action then 1 else 0
  {
    if counts != [] && counts[0].action != action {
      BumpCounts(counts[1..], action, a);
      assert ([counts[0]] + Bump(counts[1..], action))[1..] == Bump(counts[1..], action);
    } else if counts != [] {
      assert ([Tally(action, counts[0].count + 1)] + counts[1..])[1..] == counts[1..];
    }
  }

  /** A cluster's fields count its members. */
  lemma {:induction false} SummaryCounts(key: Situation, members: seq<Observation>, a: string)
    ensures Summarise(key, members).support == |members| == Weight(members, Each)
    ensures CountOf(Summarise(key, members).actions, a) == Weight(members, Took(a))
    ensures Summarise(key, members).recovered == Weight(members, Recoveries)
    ensures Summarise(key, members).sources == SourceIds(members)
  {
    if members != [] {
      var n := |members| - 1;
      SummaryCounts(key, members[..n], a);
      BumpCounts(Summarise(key, members[..n]).actions, members[n].action, a);
      assert SourceIds(members) == SourceIds(members[..n]) + [members[n].source];
    }
  }

  function SumOver(obs: seq<Observation>, names: set<string>, keys: seq<Situation>, m: Measure): nat {
    if keys == [] then 0
    else SumOver(obs, names, keys[..|keys| - 1], m) + Weight(Members(obs, names, keys[|keys| - 1]), m)
  }

  lemma WeightSnoc(obs: seq<Observation>, o: Observation, m: Measure)
    ensures Weight(obs + [o], m) == Weight(obs, m) + Amount(m, o)
  {
    assert (obs + [o])[..|obs|] == obs;
  }

  lemma MemberWeightSnoc(obs: seq<Observation>, o: Observation, names: set<string>, key: Situation, m: Measure)
    ensures Weight(Members(obs + [o], names, key), m)
         == Weight(Members(obs, names, key), m) + if KeyOf(o, names) == key then Amount(m, o) else 0
  {
    MembersSnoc(obs, o, names, key);
    if KeyOf(o, names) == key {
      WeightSnoc(Members(obs, names, key), o, m);
    } else {
      assert Members(obs + [o], names, key) == Members(obs, names, key);
    }
  }

  lemma {:induction false} SumOverSnoc(obs: seq<Observation>, o: Observation, names: set<string>, keys: seq<Situation>,
                                       m: Measure)
    requires Distinct(keys)
    ensures SumOver(obs + [o], names, keys, m) == SumOver(obs, names, keys, m) + if KeyOf(o, names) in keys
        then Amount(m, o) else 0
  {
    if keys != [] {
      var n := |keys| - 1;
      SumOverSnoc(obs, o, names, keys[..n], m);
      MemberWeightSnoc(obs, o, names, keys[n], m);
      assert keys == keys[..n] + [keys[n]];
      assert keys[n] !in keys[..n];
    }
  }

  /** Every observation falls into exactly one cluster: whatever is counted per observation, the clusters'
      counts add up to the count over all observations. */
  ghost predicate Conserves(obs: seq<Observation>, names: set<string>, m: Measure) {
    SumOver(obs, names, Keys(obs, names), m) == Weight(obs, m)
  }

  lemma {:induction false} ClusteringConserves(obs: seq<Observation>, names: set<string>, m: Measure)
    ensures Conserves(obs, names, m)
  {
    if obs == [] {
    } else {
      var rest, last := obs[..|obs| - 1], obs[|obs| - 1];
      assert obs == rest + [last];
      ClusteringConserves(rest, names, m);
      ConservesSnoc(rest, last, names, m);
    }
  }

  lemma ConservesSnoc(obs: seq<Observation>, o: Observation, names: set<string>, m: Measure)
    requires Conserves(obs, names, m)
    ensures Conserves(obs + [o], names, m)
  {
    var keys, key := Keys(obs, names), KeyOf(o, names);
    KeysAreDistinct(obs, names);
    KeysSnoc(obs, o, names);
    WeightSnoc(obs, o, m);
    SumOverSnoc(obs, o, names, keys, m);
    if key !in keys { NewKeyCounts(obs, o, names, m); }
  }

  lemma NewKeyCounts(obs: seq<Observation>, o: Observation, names: set<string>, m: Measure)
    requires KeyOf(o, names) !in Keys(obs, names)
    ensures var keys, key := Keys(obs, names), KeyOf(o, names);
            SumOver(obs + [o], names, keys + [key], m) == SumOver(obs + [o], names, keys, m) + Amount(m, o)
  {
    var keys, key := Keys(obs, names), KeyOf(o, names);
    NoMembersBeforeKey(obs, names, key);
    MemberWeightSnoc(obs, o, names, key, m);
    assert (keys + [key])[..|keys|] == keys;
  }

  // ---------------------------------------------------------------- the clusters add up

  function TotalSupport(cs: seq<Summary>): nat {
    if cs == [] then 0 else TotalSupport(cs[..|cs| - 1]) + cs[|cs| - 1].support
  }

  function TotalRecovered(cs: seq<Summary>): nat {
    if cs == [] then 0 else TotalRecovered(cs[..|cs| - 1]) + cs[|cs| - 1].recovered
  }

  function TotalTook(cs: seq<Summary>, a: string): nat {
    if cs == [] then 0 else TotalTook(cs[..|cs| - 1], a) + CountOf(cs[|cs| - 1].actions, a)
  }

  function TotalDominant(cs: seq<Summary>): nat {
    if cs == [] then 0 else TotalDominant(cs[..|cs| - 1]) + DominantCount(cs[|cs| - 1])
  }

  lemma {:induction false} TotalsAreSums(obs: seq<Observation>, names: set<string>, keys: seq<Situation>, a: string)
    ensures var cs := SummariesFor(obs, names, keys);
            && TotalSupport(cs) == SumOver(obs, names, keys, Each)
            && TotalRecovered(cs) == SumOver(obs, names, keys, Recoveries)
            && TotalTook(cs, a) == SumOver(obs, names, keys, Took(a))
  {
    if keys != [] {
      var n := |keys| - 1;
      TotalsAreSums(obs, names, keys[..n], a);
      SummaryCounts(keys[n], Members(obs, names, keys[n]), a);
      assert SummariesFor(obs, names, keys)[..n] == SummariesFor(obs, names, keys[..n]);
    }
  }

  /** Supports, recoveries and the count of every action are conserved by clustering. */
  lemma ClustersAddUp(obs: seq<Observation>, names: set<string>, a: string)
    ensures TotalSupport(Clustered(obs, names)) == |obs|
    ensures TotalRecovered(Clustered(obs, names)) == Weight(obs, Recoveries)
    ensures TotalTook(Clustered(obs, names), a) == Weight(obs, Took(a))
  {
    var keys := Keys(obs, names);
    TotalsAreSums(obs, names, keys, a);
    ClusteringConserves(obs, names, Each);
    ClusteringConserves(obs, names, Recoveries);
    ClusteringConserves(obs, names, Took(a));
    SummaryCounts(map[], obs, a);
  }

  // ---------------------------------------------------------------- refining a cluster

  lemma {:induction false} DominantIsLargest(counts: seq<Tally>, a: string)
    requires counts != []
    ensures CountOf(counts, a) <= Dominant(counts).count
  {
    if |counts| > 1 { DominantIsLargest(counts[1..], a); }
  }

  /** It is the first listed, which is the first seen, of those with the most. */
  lemma {:induction false} DominantIsFirst(counts: seq<Tally>) returns (i: nat)
    requires counts != []
    ensures i < |counts| && counts[i] == Dominant(counts)
    ensures forall j :: 0 <= j < |counts| ==> counts[j].count <= counts[i].count
    ensures forall j :: 0 <= j < i ==> counts[j].count < counts[i].count
  {
    i := 0;
    if |counts| > 1 {
      var k := DominantIsFirst(counts[1..]);
      assert forall j :: 0 < j < |counts| ==> counts[j] == counts[1..][j - 1];
      if counts[0].count < counts[k + 1].count { i := k + 1; }
    }
  }

  lemma DominantCountIsLargest(s: Summary, a: string)
    ensures CountOf(s.actions, a) <= DominantCount(s)
  {
    if s.actions != [] { DominantIsLargest(s.actions, a); }
  }

  predicate Once(counts: seq<Tally>) {
    counts == [] || (!Listed(counts[1..], counts[0].action) && Once(counts[1..]))
  }

  /** The dominant count is the dominant action's own. */
  lemma {:induction false} DominantIsCounted(counts: seq<Tally>)
    requires counts != [] && Once(counts)
    ensures Listed(counts, Dominant(counts).action)
    ensures CountOf(counts, Dominant(counts).action) == Dominant(counts).count
  {
    if |counts| > 1 { DominantIsCounted(counts[1..]); }
  }

  lemma {:induction false} BumpListsOne(counts: seq<Tally>, action: string, a: string)
    ensures Listed(Bump(counts, action), a) <==> Listed(counts, a) || a == action
  {
    if counts != [] && counts[0].action != action {
      BumpListsOne(counts[1..], action, a);
      assert ([counts[0]] + Bump(counts[1..], action))[1..] == Bump(counts[1..], action);
    } else if counts != [] {
      assert ([Tally(action, counts[0].count + 1)] + counts[1..])[1..] == counts[1..];
    }
  }

  lemma {:induction false} BumpKeepsOnce(counts: seq<Tally>, action: string)
    requires Once(counts)
    ensures Once(Bump(counts, action))
  {
    if counts != [] && counts[0].action != action {
      BumpKeepsOnce(counts[1..], action);
      BumpListsOne(counts[1..], action, counts[0].action);
      assert ([counts[0]] + Bump(counts[1..], action))[1..] == Bump(counts[1..], action);
    } else if counts != [] {
      assert ([Tally(action, counts[0].count + 1)] + counts[1..])[1..] == counts[1..];
    }
  }

  lemma {:induction false} ActionsListedOnce(key: Situation, members: seq<Observation>)
    ensures Once(Summarise(key, members).actions)
  {
    if members != [] {
      ActionsListedOnce(key, members[..|members| - 1]);
      BumpKeepsOnce(Summarise(key, members[..|members| - 1]).actions, members[|members| - 1].action);
    }
  }

  lemma {:induction false} DominantsCoverAction(cs: seq<Summary>, a: string)
    ensures TotalTook(cs, a) <= TotalDominant(cs)
  {
    if cs != [] {
      DominantsCoverAction(cs[..|cs| - 1], a);
      DominantCountIsLargest(cs[|cs| - 1], a);
    }
  }

  lemma {:induction false} MembersAreMembers(obs: seq<Observation>, names: set<string>, key: Situation)
    ensures forall o :: o in Members(obs, names, key) <==> o in obs && KeyOf(o, names) == key
  {
    if obs != [] {
      MembersAreMembers(obs[..|obs| - 1], names, key);
      assert obs == obs[..|obs| - 1] + [obs[|obs| - 1]];
    }
  }

  lemma {:induction false} KeysOccur(obs: seq<Observation>, names: set<string>, key: Situation)
    ensures key in Keys(obs, names) <==> exists o :: o in obs && KeyOf(o, names) == key
  {
    if obs != [] {
      var last := obs[|obs| - 1];
      KeysOccur(obs[..|obs| - 1], names, key);
      assert obs == obs[..|obs| - 1] + [last];
      assert last in obs;
    }
  }

  lemma ProjectTwice(s: Situation, coarse: set<string>, fine: set<string>)
    requires coarse <= fine
    ensures Project(Project(s, fine), coarse) == Project(s, coarse)
  {
  }

  /** Refining one cluster by more features splits exactly its members: the parts' keys project to the
      cluster's, its support, recoveries and action counts are theirs added up, and the observations that
      agree with their part's dominant action are at least as many as agreed with the cluster's. */
  lemma RefinementPartitions(obs: seq<Observation>, coarse: set<string>, fine: set<string>, key: Situation, a: string)
    requires coarse <= fine
    ensures var whole := Summarise(key, Members(obs, coarse, key));
            var parts := Clustered(Members(obs, coarse, key), fine);
            && (forall i :: 0 <= i < |parts| ==> Project(parts[i].key, coarse) == key)
            && TotalSupport(parts) == whole.support
            && TotalRecovered(parts) == whole.recovered
            && TotalTook(parts, a) == CountOf(whole.actions, a)
            && DominantCount(whole) <= TotalDominant(parts)
  {
    var members := Members(obs, coarse, key);
    var whole, parts := Summarise(key, members), Clustered(members, fine);
    var keys := Keys(members, fine);
    forall i | 0 <= i < |parts|
      ensures Project(parts[i].key, coarse) == key
    {
      assert keys[i] in keys;
      KeysOccur(members, fine, keys[i]);
      var o :| o in members && KeyOf(o, fine) == keys[i];
      MembersAreMembers(obs, coarse, key);
      ProjectTwice(o.situation, coarse, fine);
      SummaryKey(keys[i], Members(members, fine, keys[i]));
    }
    ClustersAddUp(members, fine, a);
    SummaryCounts(key, members, a);
    if whole.actions != [] {
      var top := Dominant(whole.actions).action;
      ActionsListedOnce(key, members);
      DominantIsCounted(whole.actions);
      ClustersAddUp(members, fine, top);
      SummaryCounts(key, members, top);
      DominantsCoverAction(parts, top);
    }
  }

  lemma {:induction false} SummaryKey(key: Situation, members: seq<Observation>)
    ensures Summarise(key, members).key == key
  {
    if members != [] { SummaryKey(key, members[..|members| - 1]); }
  }
}
