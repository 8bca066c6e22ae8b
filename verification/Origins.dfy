/** Where effects come from, wherever calls die: from the actions executors were asked for, and above the
    threshold only with an approval. */
module Origins {
  import opened GuardModel
  import opened GuardRuns
  import opened RunViews
  import opened Isolation
  import opened GuardSafety
  import opened GuardApproval
  import opened GuardCrash

  // ---------------------------------------------------------------- only what was asked for

  /** Records and effects are of these actions. */
  ghost predicate AllOf(allowed: iset<(RunId, Action)>, s: System) {
    && (forall id :: id in s.store.approvals ==> (s.store.approvals[id].run, s.store.approvals[id].action) in allowed)
    && (forall i :: 0 <= i < |s.effects| ==> (s.effects[i].run, s.effects[i].action) in allowed)
  }

  ghost predicate WriteOf(allowed: iset<(RunId, Action)>, c: Commit) {
    match c
    case Enqueue(r) => (r.run, r.action) in allowed
    case Effect(run, a) => (run, a) in allowed
    case _ => true
  }

  lemma ChainWritesOf(allowed: iset<(RunId, Action)>, q: Answers, p: Policy, run: RunId, registered: set<string>,
                      a: Action, out: Outcome, minted: ApprovalId)
    requires (run, a) in allowed
    ensures forall i :: 0 <= i < |ChainCommits(q, p, run, registered, a, out, minted)| ==>
              WriteOf(allowed, ChainCommits(q, p, run, registered, a, out, minted)[i])
  {
  }

  lemma CallWritesOf(allowed: iset<(RunId, Action)>, s: System, p: Policy, c: Call)
    requires AllOf(allowed, s) && (c.Execute? ==> (c.run, c.action) in allowed)
    ensures forall i :: 0 <= i < |Commits(s.store, p, c)| ==> WriteOf(allowed, Commits(s.store, p, c)[i])
  {
    match c
    case Execute(run, reg, a, out, minted) => ChainWritesOf(allowed, Ask(s.store, run, a), p, run, reg, a, out, minted);
    case Approve(run, reg, id, out, minted) =>
      if Owned(s.store, run, id) {
        var a := s.store.approvals[id].action;
        ChainWritesOf(allowed, Ask(s.store, run, a), p, run, reg, a, out, minted);
        ChainWritesOf(allowed, Ask(ApplyToStore(s.store, Decide(id, Approved)), run, a), p, run, reg, a, out, minted);
      }
    case Reject(_, _) =>
  }

  lemma {:induction false} WritesKeepOf(allowed: iset<(RunId, Action)>, s: System, cs: seq<Commit>)
    requires AllOf(allowed, s) && forall i :: 0 <= i < |cs| ==> WriteOf(allowed, cs[i])
    ensures AllOf(allowed, ApplyAll(s, cs))
  {
    if cs != [] {
      WritesKeepOf(allowed, s, cs[..|cs| - 1]);
      assert WriteOf(allowed, cs[|cs| - 1]);
    }
  }

  ghost predicate AskedOf(allowed: iset<(RunId, Action)>, events: seq<Event>) {
    forall k :: 0 <= k < |events| && events[k].call.Execute? ==> (events[k].call.run, events[k].call.action) in allowed
  }

  /** Every effect, and every action that waits, is one some call asked to execute. */
  lemma {:induction false} EventsKeepOf(allowed: iset<(RunId, Action)>, s: System, p: Policy, events: seq<Event>)
    requires AllOf(allowed, s) && AskedOf(allowed, events)
    ensures AllOf(allowed, RunEvents(s, p, events))
  {
    if events != [] {
      var init, e := events[..|events| - 1], events[|events| - 1];
      assert AskedOf(allowed, init);
      EventsKeepOf(allowed, s, p, init);
      var t := RunEvents(s, p, init);
      CallWritesOf(allowed, t, p, e.call);
      WritesKeepOf(allowed, t, Landed(t.store, p, e));
    }
  }

  // ---------------------------------------------------------------- approvals, with deaths

  predicate TookHold(e: Event) { e.Whole? || e.landed > 0 }

  predicate ApprovesIn(e: Event, run: RunId, id: ApprovalId) { Approves(e.call, run, id) && TookHold(e) }
  predicate RejectsIn(e: Event, run: RunId, id: ApprovalId) { Rejects(e.call, run, id) && TookHold(e) }

  /** `id` was approved by its run's executor and not rejected since. */
  ghost predicate StandsApproved(events: seq<Event>, run: RunId, id: ApprovalId) {
    exists j :: 0 <= j < |events| && ApprovesIn(events[j], run, id)
                && forall k :: j < k < |events| ==> !RejectsIn(events[k], run, id)
  }

  lemma StandsApprovedLast(events: seq<Event>, run: RunId, id: ApprovalId)
    requires events != []
    ensures var init, e := events[..|events| - 1], events[|events| - 1];
            ApprovesIn(e, run, id) || (StandsApproved(init, run, id) && !RejectsIn(e, run, id)) ==>
              StandsApproved(events, run, id)
  {
    var init, e := events[..|events| - 1], events[|events| - 1];
    if ApprovesIn(e, run, id) {
      assert ApprovesIn(events[|init|], run, id);
    } else if StandsApproved(init, run, id) && !RejectsIn(e, run, id) {
      var j :| 0 <= j < |init| && ApprovesIn(init[j], run, id)
               && forall k :: j < k < |init| ==> !RejectsIn(init[k], run, id);
      assert ApprovesIn(events[j], run, id);
      forall k | j < k < |events| ensures !RejectsIn(events[k], run, id) {
        if k < |init| { assert init[k] == events[k]; }
      }
    }
  }

  /** A decision is its call's first write, and a new record waits. */
  lemma DecisionComesFirst(st: Store, p: Policy, c: Call)
    ensures forall i :: 0 < i < |Commits(st, p, c)| ==> !Commits(st, p, c)[i].Decide?
    ensures forall i :: 0 <= i < |Commits(st, p, c)| && Commits(st, p, c)[i].Enqueue? ==>
              Commits(st, p, c)[i].pending.state == Pending
    ensures Commits(st, p, c) != [] && Commits(st, p, c)[0].Decide? ==>
              && Owned(st, c.run, Commits(st, p, c)[0].id) && !c.Execute? && Commits(st, p, c)[0].id == c.id
              && Commits(st, p, c)[0].state == if c.Approve? then Approved else Rejected
  {
  }

  /** What some writes make of a record that was there, and what new ones look like. */
  lemma {:induction false} WritesOnRecord(s: System, cs: seq<Commit>, id: ApprovalId)
    requires forall i :: 0 < i < |cs| ==> !cs[i].Decide?
    requires forall i :: 0 <= i < |cs| && cs[i].Enqueue? ==>
               cs[i].pending.state == Pending && cs[i].pending.id !in s.store.approvals
    requires cs != [] && cs[0].Decide? ==> cs[0].id in s.store.approvals
    ensures var m, m' := s.store.approvals, ApplyAll(s, cs).store.approvals;
            if id in m then
              id in m' && m'[id] == if cs != [] && cs[0].Decide? && cs[0].id == id then m[id].(state := cs[0].state)
                  else m[id]
            else id in m' ==> m'[id].state == Pending
  {
    if cs != [] {
      var init, last := cs[..|cs| - 1], cs[|cs| - 1];
      WritesOnRecord(s, init, id);
      if |cs| == 1 { assert init == []; }
    }
  }

  ghost predicate AllStand(events: seq<Event>, st: Store) {
    forall id :: id in st.approvals && st.approvals[id].state == Approved ==>
      StandsApproved(events, st.approvals[id].run, id)
  }

  lemma LandedIsPrefix(st: Store, p: Policy, e: Event)
    ensures var n := |Landed(st, p, e)|;
            n <= |Commits(st, p, e.call)| && Landed(st, p, e) == Commits(st, p, e.call)[..n] && (n > 0 ==> TookHold(e))
    ensures TookHold(e) && Commits(st, p, e.call) != [] ==> Landed(st, p, e) != []
  {
  }

  /** What an event makes of one record. */
  lemma EventOnRecord(s: System, p: Policy, e: Event, id: ApprovalId)
    requires WellFormed(s.store) && Fresh(s.store, e.call)
    ensures var m, m' := s.store.approvals, EventOn(s, p, e).store.approvals;
            if id !in m then id in m' ==> m'[id].state == Pending
            else
              && id in m' && m'[id].run == m[id].run
              && (m'[id].state == Approved ==>
                    || ApprovesIn(e, m[id].run, id)
                    || (m[id].state == Approved && !RejectsIn(e, m[id].run, id)))
  {
    var cs := Commits(s.store, p, e.call);
    LandedIsPrefix(s.store, p, e);
    DecisionComesFirst(s.store, p, e.call);
    var done := Landed(s.store, p, e);
    forall i | 0 <= i < |done| && done[i].Enqueue?
      ensures done[i].pending.state == Pending && done[i].pending.id !in s.store.approvals
    {
      EnqueueComesFirst(s.store, p, e.call, i);
    }
    WritesOnRecord(s, done, id);
  }

  lemma {:induction false} ApprovalsStand(p: Policy, events: seq<Event>)
    requires FreshEvents(START, p, events)
    ensures AllStand(events, RunEvents(START, p, events).store)
  {
    if events != [] {
      var init, e := events[..|events| - 1], events[|events| - 1];
      ApprovalsStand(p, init);
      EventsStayWellFormed(p, init);
      var before, after := RunEvents(START, p, init).store, RunEvents(START, p, events).store;
      forall id | id in after.approvals && after.approvals[id].state == Approved
        ensures StandsApproved(events, after.approvals[id].run, id)
      {
        EventOnRecord(RunEvents(START, p, init), p, e, id);
        StandsApprovedLast(events, before.approvals[id].run, id);
      }
    }
  }

  // ---------------------------------------------------------------- every effect has its event

  /** The n-th event performed the action, with the record on file for its key standing approved. */
  ghost predicate PerformedAt(p: Policy, events: seq<Event>, n: nat, run: RunId, a: Action)
    requires n < |events|
  {
    Performs(Landed(RunEvents(START, p, events[..n]).store, p, events[n]), run, a)
  }

  ghost predicate WithLeave(p: Policy, events: seq<Event>, n: nat, run: RunId, key: Key)
    requires n < |events|
  {
    var st := RunEvents(START, p, events[..n]).store;
    (run, key) in st.byKey && StandsApproved(events[..n + 1], run, st.byKey[(run, key)])
  }

  lemma {:induction false} WritesAddEffects(s: System, cs: seq<Commit>, k: nat)
    requires k < |ApplyAll(s, cs).effects|
    ensures |s.effects| <= |ApplyAll(s, cs).effects|
    ensures k < |s.effects| ==> ApplyAll(s, cs).effects[k] == s.effects[k]
    ensures k >= |s.effects| ==> var e := ApplyAll(s, cs).effects[k]; Performs(cs, e.run, e.action)
  {
    if cs != [] {
      var init, last := cs[..|cs| - 1], cs[|cs| - 1];
      var t := ApplyAll(s, init);
      if k < |t.effects| {
        WritesAddEffects(s, init, k);
        if k >= |s.effects| {
          var i :| 0 <= i < |init| && init[i] == Effect(t.effects[k].run, t.effects[k].action);
          assert cs[i] == init[i];
        }
      } else {
        EffectsOnlyGrow(s, init);
        assert cs[|cs| - 1] == Effect(last.run, last.action);
      }
    }
  }

  lemma {:induction false} EffectsOnlyGrow(s: System, cs: seq<Commit>)
    ensures |s.effects| <= |ApplyAll(s, cs).effects|
  {
    if cs != [] { EffectsOnlyGrow(s, cs[..|cs| - 1]); }
  }

  lemma {:induction false} EffectHasEvent(p: Policy, events: seq<Event>, k: nat) returns (n: nat)
    requires k < |RunEvents(START, p, events).effects|
    ensures n < |events|
    ensures var e := RunEvents(START, p, events).effects[k]; PerformedAt(p, events, n, e.run, e.action)
  {
    var init, e := events[..|events| - 1], events[|events| - 1];
    var before := RunEvents(START, p, init);
    WritesAddEffects(before, Landed(before.store, p, e), k);
    if k < |before.effects| {
      n := EffectHasEvent(p, init, k);
      assert init[..n] == events[..n];
    } else {
      n := |init|;
    }
  }

  /** What a call performs above the threshold has its record approved already, or the call approves it. */
  lemma GatedCall(st: Store, p: Policy, c: Call, a: Action)
    requires WellFormed(st) && Performs(Commits(st, p, c), c.run, a) && a.cost > p.threshold
    ensures (c.run, a.key) in st.byKey
    ensures (IsApproved(st, c.run, a.key) && !c.Reject?) || Approves(c, c.run, st.byKey[(c.run, a.key)])
  {
    assert Indexed(st.approvals, st.byKey);
    match c
    case Execute(run, reg, b, out, minted) => ChainPerforms(Ask(st, run, b), p, run, reg, b, out, minted, a);
    case Approve(run, reg, id, out, minted) =>
      var b, decide := st.approvals[id].action, Decide(id, Approved);
      ChainPerforms(Ask(st, run, b), p, run, reg, b, out, minted, a);
      if st.approvals[id].state != Approved {
        var rest := ChainCommits(Ask(ApplyToStore(st, decide), run, b), p, run, reg, b, out, minted);
        ChainPerforms(Ask(ApplyToStore(st, decide), run, b), p, run, reg, b, out, minted, a);
        var i :| 0 <= i < |[decide] + rest| && ([decide] + rest)[i] == Effect(run, a);
        assert rest[i - 1] == Effect(run, a);
      }
  }

  lemma PerformsInCall(st: Store, p: Policy, e: Event, run: RunId, a: Action)
    requires Performs(Landed(st, p, e), run, a)
    ensures run == e.call.run && Performs(Commits(st, p, e.call), run, a) && TookHold(e)
  {
    LandedIsPrefix(st, p, e);
    var i :| 0 <= i < |Landed(st, p, e)| && Landed(st, p, e)[i] == Effect(run, a);
    assert Commits(st, p, e.call)[i] == Effect(run, a);
    CommitsOnRun(st, p, e.call);
  }

  lemma GatedEventHadLeave(p: Policy, events: seq<Event>, n: nat, run: RunId, a: Action)
    requires n < |events| && FreshEvents(START, p, events[..n + 1])
    requires PerformedAt(p, events, n, run, a) && a.cost > p.threshold
    ensures WithLeave(p, events, n, run, a.key)
  {
    var init, e := events[..n], events[n];
    var st := RunEvents(START, p, init).store;
    assert events[..n + 1][..n] == init && events[..n + 1][n] == e;
    EventsStayWellFormed(p, init);
    PerformsInCall(st, p, e, run, a);
    GatedCall(st, p, e.call, a);
    ApprovalsStand(p, init);
    assert Indexed(st.approvals, st.byKey);
    StandsApprovedLast(events[..n + 1], run, st.byKey[(run, a.key)]);
  }

  lemma {:induction false} FreshEventsPrefix(p: Policy, events: seq<Event>, n: nat)
    requires FreshEvents(START, p, events) && n <= |events|
    ensures FreshEvents(START, p, events[..n])
  {
    if n == |events| {
      assert events[..n] == events;
    } else {
      FreshEventsPrefix(p, events[..|events| - 1], n);
      assert events[..|events| - 1][..n] == events[..n];
    }
  }

  /** Wherever calls die: every effect above the threshold was performed with the record on file for its run
      and key approved by that run, and not rejected since. */
  lemma LargeEffectsHadLeave(p: Policy, events: seq<Event>, k: nat)
    requires FreshEvents(START, p, events) && k < |RunEvents(START, p, events).effects|
    requires RunEvents(START, p, events).effects[k].action.cost > p.threshold
    ensures var e := RunEvents(START, p, events).effects[k];
            exists n :: 0 <= n < |events| && PerformedAt(p, events, n, e.run, e.action)
                        && WithLeave(p, events, n, e.run, e.action.key)
  {
    var e := RunEvents(START, p, events).effects[k];
    var n := EffectHasEvent(p, events, k);
    FreshEventsPrefix(p, events, n + 1);
    GatedEventHadLeave(p, events, n, e.run, e.action);
  }

  // ---------------------------------------------------------------- what is spent

  lemma TotalCostSnoc(actions: seq<Action>, a: Action)
    ensures TotalCost(actions + [a]) == TotalCost(actions) + a.cost
  {
    assert (actions + [a])[..|actions|] == actions;
  }

  lemma ReachKeepsSpend(p: Policy, v: RunView, w: RunView, run: RunId, r: Reach)
    requires Reaches(p, v, w, run, r, true) && TotalCost(v.effects) == v.row.spend
    ensures TotalCost(w.effects) == w.row.spend
  {
    if r.EffectAt? { TotalCostSnoc(v.effects, r.action); }
  }

  /** Where no call on a run was cut short, its recorded spend is the cost of its effects. */
  lemma {:induction false} SpendIsCost(p: Policy, events: seq<Event>, run: RunId)
    requires FreshEvents(START, p, events) && Crashes(events, run) == 0
    ensures var v := View(RunEvents(START, p, events), run); TotalCost(v.effects) == v.row.spend
  {
    if events != [] {
      var init, e := events[..|events| - 1], events[|events| - 1];
      SpendIsCost(p, init, run);
      EventsStayWellFormed(p, init);
      var before := RunEvents(START, p, init);
      var n := |Landed(before.store, p, e)|;
      LandedIsPrefix(before.store, p, e);
      EventMovesItsRun(before, p, e.call, n, run);
      if e.call.run == run {
        var v := View(before, run);
        var r := CallReach(p, v, e.call, n);
        ReachKeepsSpend(p, v, View(RunEvents(START, p, events), run), run, r);
      }
    }
  }
}
