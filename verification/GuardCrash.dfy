/** Runs in which the process may die between any two committed writes of a call. */
module GuardCrash {
  import opened GuardModel
  import opened GuardRuns
  import opened RunViews
  import opened Isolation
  import opened Replay
  import opened GuardSafety

  /** A call that finished, or one that died after `landed` of its writes. */
  datatype Event = Whole(call: Call) | Cut(call: Call, landed: nat)

  function Landed(st: Store, p: Policy, e: Event): seq<Commit> {
    var cs := Commits(st, p, e.call);
    if e.Cut? && e.landed < |cs| then cs[..e.landed] else cs
  }

  function EventOn(sys: System, p: Policy, e: Event): System { ApplyAll(sys, Landed(sys.store, p, e)) }

  function RunEvents(sys: System, p: Policy, events: seq<Event>): System {
    if events == [] then sys
    else EventOn(RunEvents(sys, p, events[..|events| - 1]), p, events[|events| - 1])
  }

  predicate FreshEvents(sys: System, p: Policy, events: seq<Event>) {
    events == []
    || (var init := events[..|events| - 1];
        FreshEvents(sys, p, init) && Fresh(RunEvents(sys, p, init).store, events[|events| - 1].call))
  }

  function Crashes(events: seq<Event>, run: RunId): nat {
    if events == [] then 0
    else
      var e := events[|events| - 1];
      Crashes(events[..|events| - 1], run) + if e.Cut? && e.call.run == run then 1 else 0
  }

  // ---------------------------------------------------------------- putting events together

  function Wholes(calls: seq<Call>): seq<Event> {
    if calls == [] then [] else Wholes(calls[..|calls| - 1]) + [Whole(calls[|calls| - 1])]
  }

  lemma EventSnoc(sys: System, p: Policy, events: seq<Event>, e: Event)
    ensures RunEvents(sys, p, events + [e]) == EventOn(RunEvents(sys, p, events), p, e)
    ensures FreshEvents(sys, p, events + [e]) <==>
          FreshEvents(sys, p, events) && Fresh(RunEvents(sys, p, events).store, e.call)
  {
    assert (events + [e])[..|events|] == events;
  }

  /** Calls that all finish are a run of calls. */
  lemma {:induction false} WholesRun(sys: System, p: Policy, calls: seq<Call>)
    ensures RunEvents(sys, p, Wholes(calls)) == RunAll(sys, p, calls)
    ensures FreshEvents(sys, p, Wholes(calls)) <==> FreshIds(sys, p, calls)
  {
    if calls != [] {
      var init, c := calls[..|calls| - 1], calls[|calls| - 1];
      WholesRun(sys, p, init);
      EventSnoc(sys, p, Wholes(init), Whole(c));
    }
  }

  lemma EventLast(sys: System, p: Policy, events: seq<Event>)
    requires events != []
    ensures RunEvents(sys, p, events) == EventOn(RunEvents(sys, p, events[..|events| - 1]), p, events[|events| - 1])
  {
  }

  lemma OneMoreEvent(sys: System, p: Policy, a: seq<Event>, mid: System, b: seq<Event>, c: seq<Event>)
    requires b != [] && c != [] && c[|c| - 1] == b[|b| - 1]
    requires RunEvents(sys, p, c[..|c| - 1]) == RunEvents(mid, p, b[..|b| - 1])
    ensures RunEvents(sys, p, c) == RunEvents(mid, p, b)
  {
    EventLast(sys, p, c);
    EventLast(mid, p, b);
  }

  /** `c` is `a` and then `b`. */
  lemma {:induction false} EventsConcat(sys: System, p: Policy, a: seq<Event>, b: seq<Event>, c: seq<Event>)
    requires c == a + b
    ensures RunEvents(sys, p, c) == RunEvents(RunEvents(sys, p, a), p, b)
    decreases |b|
  {
    if b == [] {
      assert c == a;
    } else {
      var init := b[..|b| - 1];
      assert c[..|c| - 1] == a + init && c[|c| - 1] == b[|b| - 1];
      EventsConcat(sys, p, a, init, c[..|c| - 1]);
      OneMoreEvent(sys, p, a, RunEvents(sys, p, a), b, c);
    }
  }

  lemma OneMoreFresh(sys: System, p: Policy, mid: System, b: seq<Event>, c: seq<Event>)
    requires b != [] && c != [] && c[|c| - 1] == b[|b| - 1]
    requires RunEvents(sys, p, c[..|c| - 1]) == RunEvents(mid, p, b[..|b| - 1])
    requires FreshEvents(sys, p, c[..|c| - 1]) && FreshEvents(mid, p, b)
    ensures FreshEvents(sys, p, c)
  {
  }

  lemma {:induction false} FreshConcat(sys: System, p: Policy, a: seq<Event>, b: seq<Event>, c: seq<Event>)
    requires c == a + b && FreshEvents(sys, p, a) && FreshEvents(RunEvents(sys, p, a), p, b)
    ensures FreshEvents(sys, p, c)
    decreases |b|
  {
    if b == [] {
      assert c == a;
    } else {
      var init := b[..|b| - 1];
      assert c[..|c| - 1] == a + init && c[|c| - 1] == b[|b| - 1];
      FreshConcat(sys, p, a, init, c[..|c| - 1]);
      EventsConcat(sys, p, a, init, c[..|c| - 1]);
      OneMoreFresh(sys, p, RunEvents(sys, p, a), b, c);
    }
  }

  // ---------------------------------------------------------------- counting

  ghost function Sum(m: map<(RunId, Subject), nat>): nat
    decreases |m|
  {
    if m == map[] then 0
    else
      var k :| k in m;
      m[k] + Sum(m - {k})
  }

  /** The sum does not depend on the order the keys are taken in. */
  lemma {:induction false} SumTakes(m: map<(RunId, Subject), nat>, k: (RunId, Subject))
    requires k in m
    ensures Sum(m) == m[k] + Sum(m - {k})
    decreases |m|
  {
    var j :| j in m && Sum(m) == m[j] + Sum(m - {j});
    if j != k {
      SumTakes(m - {j}, k);
      SumTakes(m - {k}, j);
      assert m - {j} - {k} == m - {k} - {j};
    }
  }

  lemma SumPlusOne(m: map<(RunId, Subject), nat>, k: (RunId, Subject))
    ensures Sum(m[k := (if k in m then m[k] else 0) + 1]) == Sum(m) + 1
  {
    var m' := m[k := (if k in m then m[k] else 0) + 1];
    SumTakes(m', k);
    if k in m {
      SumTakes(m, k);
      assert m' - {k} == m - {k};
    } else {
      assert m' - {k} == m;
    }
  }

  function ExecutedEntries(log: seq<AuditEntry>): nat { Replayed(log).executedCount }

  /** Effects >= recorded executions >= stored results >= executed entries, one behind per crash at most. */
  ghost predicate InOrder(v: RunView, crashes: nat) {
    && |v.effects| >= Sum(v.counts) >= |v.stored| >= ExecutedEntries(v.log)
    && |v.effects| - ExecutedEntries(v.log) <= crashes
  }

  ghost predicate WithinLimits(p: Policy, v: RunView, run: RunId) {
    && v.row.spend <= MaxReal(p.cap, 0.0)
    && forall s :: CountIn(v.counts, run, s) <= MaxInt(p.budget, 0)
  }

  /** Writes that move none of the four tallies. */
  predicate Quiet(c: Commit) {
    !c.Effect? && !c.Record? && !c.Put? && (c.Audit? ==> c.decision != Verdict(Executed))
  }

  ghost predicate SameTallies(v: RunView, w: RunView) {
    && w.effects == v.effects && w.counts == v.counts && w.stored == v.stored
    && ExecutedEntries(w.log) == ExecutedEntries(v.log) && w.row.spend == v.row.spend
  }

  lemma QuietWrite(v: RunView, run: RunId, c: Commit)
    requires Quiet(c)
    ensures SameTallies(v, OnView(v, run, c))
  {
    if c.Audit? && c.run == run {
      FoldsSnoc(v.log, EntryFor(v, run, c.action, c.decision));
    }
  }

  lemma {:induction false} QuietWrites(v: RunView, run: RunId, cs: seq<Commit>)
    requires forall i :: 0 <= i < |cs| ==> Quiet(cs[i])
    ensures SameTallies(v, OnViewAll(v, run, cs))
  {
    if cs != [] {
      QuietWrites(v, run, cs[..|cs| - 1]);
      QuietWrite(OnViewAll(v, run, cs[..|cs| - 1]), run, cs[|cs| - 1]);
    }
  }

  /** Where an interrupted effect leaves the run: after 1 the effect, 2 its record, 3 its result, 4 its entry. */
  function EffectCutAt(v: RunView, run: RunId, a: Action, result: Payload, n: nat): RunView {
    v.(effects := if n < 1 then v.effects else v.effects + [a],
       counts := if n < 2 then v.counts else v.counts[(run, a.subject) := CountIn(v.counts, run, a.subject) + 1],
       row := if n < 2 then v.row else RunRow(v.row.spend + a.cost, v.row.open),
       stored := if n < 3 then v.stored else v.stored[(run, a.key) := IdemRecord(Executed, result)],
       log := if n < 4 then v.log else v.log + [EntryFor(v, run, a, Verdict(Executed))])
  }

  lemma EffectWritesCut(v: RunView, run: RunId, a: Action, result: Payload, n: nat)
    requires n <= 4
    ensures OnViewAll(v, run, EffectCommits(run, a, Returned(result))[..n]) == EffectCutAt(v, run, a, result, n)
  {
    var cs := EffectCommits(run, a, Returned(result));
    OnViewSome(v, run, cs[0], cs[1], cs[2], cs[3]);
    if n == 0 {
      assert cs[..n] == [];
    } else if n == 1 {
      assert cs[..n] == [cs[0]];
    } else if n == 2 {
      assert cs[..n] == [cs[0], cs[1]];
    } else if n == 3 {
      assert cs[..n] == [cs[0], cs[1], cs[2]];
    } else {
      assert cs[..n] == cs;
    }
  }

  lemma SumAfterCut(v: RunView, run: RunId, a: Action, result: Payload, n: nat)
    ensures Sum(EffectCutAt(v, run, a, result, n).counts) == Sum(v.counts) + if n < 2 then 0 else 1
  {
    SumPlusOne(v.counts, (run, a.subject));
  }

  lemma StoredAfterCut(v: RunView, run: RunId, a: Action, result: Payload, n: nat)
    requires (run, a.key) !in v.stored
    ensures |EffectCutAt(v, run, a, result, n).stored| == |v.stored| + if n < 3 then 0 else 1
  {
  }

  lemma ExecutedAfterCut(v: RunView, run: RunId, a: Action, result: Payload, n: nat)
    ensures ExecutedEntries(EffectCutAt(v, run, a, result, n).log) == ExecutedEntries(v.log) + if n < 4 then 0 else 1
  {
    FoldsSnoc(v.log, EntryFor(v, run, a, Verdict(Executed)));
  }

  lemma CutStaysInOrder(v: RunView, run: RunId, a: Action, result: Payload, n: nat, crashes: nat)
    requires n <= 4 && InOrder(v, crashes) && (run, a.key) !in v.stored
    ensures InOrder(EffectCutAt(v, run, a, result, n), if n == 4 then crashes else crashes + 1)
  {
    SumAfterCut(v, run, a, result, n);
    StoredAfterCut(v, run, a, result, n);
    ExecutedAfterCut(v, run, a, result, n);
    assert |EffectCutAt(v, run, a, result, n).effects| == |v.effects| + if n < 1 then 0 else 1;
  }

  lemma CutWithinLimits(p: Policy, v: RunView, run: RunId, a: Action, result: Payload, n: nat)
    requires WithinLimits(p, v, run) && CountIn(v.counts, run, a.subject) < p.budget && v.row.spend + a.cost <= p.cap
    ensures WithinLimits(p, EffectCutAt(v, run, a, result, n), run)
  {
    RecordedWithinLimits(p, v, run, a);
    var recorded := OnView(v, run, Record(run, a.subject, a.cost));
    var w := EffectCutAt(v, run, a, result, n);
    assert n < 2 ==> w.counts == v.counts && w.row == v.row;
    assert n >= 2 ==> w.counts == recorded.counts && w.row == recorded.row;
  }

  lemma RecordedWithinLimits(p: Policy, v: RunView, run: RunId, a: Action)
    requires WithinLimits(p, v, run) && CountIn(v.counts, run, a.subject) < p.budget && v.row.spend + a.cost <= p.cap
    ensures WithinLimits(p, OnView(v, run, Record(run, a.subject, a.cost)), run)
  {
    var w := OnView(v, run, Record(run, a.subject, a.cost));
    forall s ensures CountIn(w.counts, run, s) <= MaxInt(p.budget, 0) {
      assert CountIn(v.counts, run, s) <= MaxInt(p.budget, 0);
    }
  }

  // ---------------------------------------------------------------- how far a call got

  /** Either no effect happened, or the call got m of the four writes of an effect done. */
  datatype Reach = NoEffect | EffectAt(action: Action, result: Payload, m: nat)

  /** The run's tallies moved from v to w as the reach says; `whole` says that the call finished. */
  ghost predicate Reaches(p: Policy, v: RunView, w: RunView, run: RunId, r: Reach, whole: bool) {
    match r
    case NoEffect => SameTallies(v, w)
    case EffectAt(a, result, m) =>
      && m <= 4 && (m == 4 <==> whole)
      && (run, a.key) !in v.stored && CountIn(v.counts, run, a.subject) < p.budget && v.row.spend + a.cost <= p.cap
      && SameTallies(EffectCutAt(v, run, a, result, m), w)
  }

  lemma ChainReach(p: Policy, v: RunView, run: RunId, registered: set<string>, a: Action, out: Outcome,
                   minted: ApprovalId, n: nat)
    returns (r: Reach)
    requires n <= |ChainCommits(AskView(v, run, a), p, run, registered, a, out, minted)|
    ensures var cs := ChainCommits(AskView(v, run, a), p, run, registered, a, out, minted);
            Reaches(p, v, OnViewAll(v, run, cs[..n]), run, r, n == |cs|)
  {
    var cs := ChainCommits(AskView(v, run, a), p, run, registered, a, out, minted);
    if |cs| == 4 {
      EffectWritesCut(v, run, a, out.result, n);
      r := EffectAt(a, out.result, n);
    } else {
      QuietWrites(v, run, cs[..n]);
      r := NoEffect;
    }
  }

  lemma CutIgnoresRecords(v: RunView, v1: RunView, run: RunId, a: Action, result: Payload, m: nat)
    requires v1 == v.(approvals := v1.approvals)
    ensures SameTallies(EffectCutAt(v1, run, a, result, m), EffectCutAt(v, run, a, result, m))
  {
  }

  /** A view that differs in its records only gets as far. */
  lemma ReachFromDecided(p: Policy, v: RunView, v1: RunView, w: RunView, run: RunId, r: Reach, whole: bool)
    requires Reaches(p, v1, w, run, r, whole)
    requires v1 == v.(approvals := v1.approvals)
    ensures Reaches(p, v, w, run, r, whole)
  {
    if r.EffectAt? { CutIgnoresRecords(v, v1, run, r.action, r.result, r.m); }
  }

  lemma ApprovalReach(p: Policy, v: RunView, c: Call, n: nat) returns (r: Reach)
    requires 0 < n <= |CommitsOnView(v, p, c)|
    requires c.Approve? && c.id in v.approvals && v.approvals[c.id].state != Approved
    ensures Reaches(p, v, OnViewAll(v, c.run, CommitsOnView(v, p, c)[..n]), c.run, r, n == |CommitsOnView(v, p, c)|)
  {
    var decide, a := Decide(c.id, Approved), v.approvals[c.id].action;
    var w := OnView(v, c.run, decide);
    var rest := ChainCommits(AskView(w, c.run, a), p, c.run, c.registered, a, c.outcome, c.minted);
    assert CommitsOnView(v, p, c) == [decide] + rest;
    assert ([decide] + rest)[..n] == [decide] + rest[..n - 1];
    OnViewSome(v, c.run, decide, decide, decide, decide);
    OnViewAllConcat(v, c.run, [decide], rest[..n - 1]);
    r := ChainReach(p, w, c.run, c.registered, a, c.outcome, c.minted, n - 1);
    ReachFromDecided(p, v, w, OnViewAll(w, c.run, rest[..n - 1]), c.run, r, n - 1 == |rest|);
  }

  lemma CallReach(p: Policy, v: RunView, c: Call, n: nat) returns (r: Reach)
    requires n <= |CommitsOnView(v, p, c)|
    ensures Reaches(p, v, OnViewAll(v, c.run, CommitsOnView(v, p, c)[..n]), c.run, r, n == |CommitsOnView(v, p, c)|)
  {
    var cs := CommitsOnView(v, p, c);
    if c.Execute? {
      r := ChainReach(p, v, c.run, c.registered, c.action, c.outcome, c.minted, n);
    } else if c.Reject? || c.id !in v.approvals || n == 0 {
      QuietWrites(v, c.run, cs[..n]);
      r := NoEffect;
    } else if v.approvals[c.id].state == Approved {
      r := ChainReach(p, v, c.run, c.registered, v.approvals[c.id].action, c.outcome, c.minted, n);
    } else {
      r := ApprovalReach(p, v, c, n);
    }
  }

  lemma ReachKeepsOrder(p: Policy, v: RunView, w: RunView, run: RunId, r: Reach, whole: bool, crashes: nat)
    requires Reaches(p, v, w, run, r, whole) && InOrder(v, crashes)
    ensures InOrder(w, if whole then crashes else crashes + 1)
  {
    if r.EffectAt? { CutStaysInOrder(v, run, r.action, r.result, r.m, crashes); }
  }

  lemma ReachKeepsLimits(p: Policy, v: RunView, w: RunView, run: RunId, r: Reach, whole: bool)
    requires Reaches(p, v, w, run, r, whole) && WithinLimits(p, v, run)
    ensures WithinLimits(p, w, run)
  {
    if r.EffectAt? { CutWithinLimits(p, v, run, r.action, r.result, r.m); }
  }

  lemma {:induction false} EventsStayWellFormed(p: Policy, events: seq<Event>)
    requires FreshEvents(START, p, events)
    ensures WellFormed(RunEvents(START, p, events).store)
  {
    if events != [] {
      var init, e := events[..|events| - 1], events[|events| - 1];
      EventsStayWellFormed(p, init);
      var before := RunEvents(START, p, init);
      var cs := Commits(before.store, p, e.call);
      var n := |Landed(before.store, p, e)|;
      assert Landed(before.store, p, e) == cs[..n];
      CommitsKeepWellFormed(before, p, e.call, n);
    }
  }

  /** A landed prefix of a call's writes moves only its own run's view. */
  lemma EventMovesItsRun(sys: System, p: Policy, c: Call, n: nat, run: RunId)
    requires WellFormed(sys.store) && Fresh(sys.store, c) && n <= |Commits(sys.store, p, c)|
    ensures var cs := Commits(sys.store, p, c);
            View(ApplyAll(sys, cs[..n]), run)
              == if c.run == run then OnViewAll(View(sys, run), run, cs[..n]) else View(sys, run)
    ensures Commits(sys.store, p, c) == CommitsOnView(View(sys, c.run), p, c)
  {
    var cs := Commits(sys.store, p, c);
    CommitShape(sys.store, p, c);
    DecidedRecordsAreOwned(sys.store, p, c);
    PrefixEnqueuesFresh(sys.store, cs, n);
    ViewOfApplyAll(sys, cs[..n], run);
    CallSeesItsRun(sys, p, c);
    if c.run != run {
      OthersUnmoved(View(sys, run), c.run, run, cs[..n]);
    }
  }

  /** Whatever calls die wherever they like: for each run, effects >= recorded executions >= stored
      results >= executed audit entries, effects exceed executed entries by at most the run's crashes,
      and the recorded spend and counts still respect the cap and the budget. */
  lemma {:induction false} CrashesKeepOrder(p: Policy, events: seq<Event>, run: RunId)
    requires FreshEvents(START, p, events)
    ensures var v := View(RunEvents(START, p, events), run);
            InOrder(v, Crashes(events, run)) && WithinLimits(p, v, run)
  {
    if events == [] {
      assert Sum(map[]) == 0;
    } else {
      var init, e := events[..|events| - 1], events[|events| - 1];
      CrashesKeepOrder(p, init, run);
      EventsStayWellFormed(p, init);
      var before := RunEvents(START, p, init);
      var cs := Commits(before.store, p, e.call);
      var n := |Landed(before.store, p, e)|;
      assert Landed(before.store, p, e) == cs[..n];
      EventMovesItsRun(before, p, e.call, n, run);
      if e.call.run == run {
        var v, w := View(before, run), View(ApplyAll(before, cs[..n]), run);
        var r := CallReach(p, v, e.call, n);
        ReachKeepsOrder(p, v, w, run, r, n == |cs|, Crashes(init, run));
        ReachKeepsLimits(p, v, w, run, r, n == |cs|);
      }
    }
  }

  /** With no crash the four tallies coincide: nothing is lost and nothing is done twice. */
  lemma NoCrashNoGap(p: Policy, events: seq<Event>, run: RunId)
    requires FreshEvents(START, p, events) && Crashes(events, run) == 0
    ensures var v := View(RunEvents(START, p, events), run);
            |v.effects| == Sum(v.counts) == |v.stored| == ExecutedEntries(v.log)
  {
    CrashesKeepOrder(p, events, run);
  }

  // ---------------------------------------------------------------- effects under one key

  /** How many of the effects happened under this key. */
  function Under(effects: seq<Action>, key: Key): nat {
    if effects == [] then 0
    else Under(effects[..|effects| - 1], key) + if effects[|effects| - 1].key == key then 1 else 0
  }

  /** The stored result accounts for one effect under the key, and each death for one more at most. */
  ghost predicate Covered(v: RunView, run: RunId, key: Key, crashes: nat) {
    Under(v.effects, key) <= crashes + if (run, key) in v.stored then 1 else 0
  }

  lemma UnderSnoc(effects: seq<Action>, a: Action, key: Key)
    ensures Under(effects + [a], key) == Under(effects, key) + if a.key == key then 1 else 0
  {
    assert (effects + [a])[..|effects|] == effects;
  }

  lemma CutKeepsCovered(v: RunView, run: RunId, a: Action, result: Payload, m: nat, key: Key, crashes: nat)
    requires m <= 4 && (run, a.key) !in v.stored && Covered(v, run, key, crashes)
    ensures Covered(EffectCutAt(v, run, a, result, m), run, key, if m == 4 then crashes else crashes + 1)
  {
    UnderSnoc(v.effects, a, key);
    assert EffectCutAt(v, run, a, result, m).effects == if m < 1 then v.effects else v.effects + [a];
    assert EffectCutAt(v, run, a, result, m).stored
        == if m < 3 then v.stored else v.stored[(run, a.key) := IdemRecord(Executed, result)];
  }

  lemma ReachKeepsCovered(p: Policy, v: RunView, w: RunView, run: RunId, r: Reach, whole: bool, key: Key, crashes: nat)
    requires Reaches(p, v, w, run, r, whole) && Covered(v, run, key, crashes)
    ensures Covered(w, run, key, if whole then crashes else crashes + 1)
  {
    if r.EffectAt? { CutKeepsCovered(v, run, r.action, r.result, r.m, key, crashes); }
  }

  lemma {:induction false} EffectsAreCovered(p: Policy, events: seq<Event>, run: RunId, key: Key)
    requires FreshEvents(START, p, events)
    ensures Covered(View(RunEvents(START, p, events), run), run, key, Crashes(events, run))
  {
    if events != [] {
      var init, e := events[..|events| - 1], events[|events| - 1];
      EffectsAreCovered(p, init, run, key);
      EventsStayWellFormed(p, init);
      var before := RunEvents(START, p, init);
      var cs := Commits(before.store, p, e.call);
      var n := |Landed(before.store, p, e)|;
      assert Landed(before.store, p, e) == cs[..n];
      EventMovesItsRun(before, p, e.call, n, run);
      if e.call.run == run {
        var v := View(before, run);
        var r := CallReach(p, v, e.call, n);
        ReachKeepsCovered(p, v, View(ApplyAll(before, cs[..n]), run), run, r, n == |cs|, key, Crashes(init, run));
      }
    }
  }

  /** Wherever calls die: a run's effects under one key exceed one by at most the run's deaths. */
  lemma EffectsPerKey(p: Policy, events: seq<Event>, run: RunId, key: Key)
    requires FreshEvents(START, p, events)
    ensures Under(EffectsOf(RunEvents(START, p, events).effects, run), key) <= 1 + Crashes(events, run)
  {
    EffectsAreCovered(p, events, run, key);
  }

  /** The gap is real: a death between an effect and its record lets a retry under the same key repeat the
      effect, for every action the guards let through. */
  lemma DeathMayRepeatEffect(p: Policy, run: RunId, registered: set<string>, a: Action, result: Payload,
                             minted: ApprovalId)
    requires a.name in registered && a.cost <= p.threshold && p.budget > 0 && a.cost <= p.cap
    ensures var c := Execute(run, registered, a, Returned(result), minted);
            && FreshEvents(START, p, [Cut(c, 1), Whole(c)])
            && RunEvents(START, p, [Cut(c, 1), Whole(c)]).effects == [Performed(run, a), Performed(run, a)]
  {
    var c := Execute(run, registered, a, Returned(result), minted);
    var cs := EffectCommits(run, a, Returned(result));
    assert Commits(EMPTY_STORE, p, c) == cs;
    assert [Cut(c, 1)][..0] == [] && [Cut(c, 1), Whole(c)][..1] == [Cut(c, 1)];
    assert RunEvents(START, p, []) == START && FreshEvents(START, p, []);
    assert cs[..1] == [Effect(run, a)];
    ApplyAll1(START, Effect(run, a));
    var died := RunEvents(START, p, [Cut(c, 1)]);
    assert died == System(EMPTY_STORE, [Performed(run, a)]);
    ApplyAll4(died, cs[0], cs[1], cs[2], cs[3]);
    assert cs == [cs[0], cs[1], cs[2], cs[3]];
  }
}
