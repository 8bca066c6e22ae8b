/** What deaths inside executor calls can do to a payment: repeat an effect, at most once each. */
module RecoveryCrash {
  import opened GuardModel
  import opened GuardRuns
  import opened RunViews
  import opened GuardCrash
  import opened RecoveryTools

  predicate ToolEvents(events: seq<Event>) {
    forall k :: 0 <= k < |events| && events[k].call.Execute? ==> IsToolAction(events[k].call.action, events[k].call.run)
  }

  lemma {:induction false} EventsKeepTools(p: Policy, events: seq<Event>)
    requires ToolEvents(events)
    ensures OnlyTools(RunEvents(START, p, events))
  {
    if events != [] {
      var init, e := events[..|events| - 1], events[|events| - 1];
      assert forall k :: 0 <= k < |init| ==> init[k] == events[k];
      EventsKeepTools(p, init);
      var s := RunEvents(START, p, init);
      CallCommitsTools(s, p, e.call);
      CommitsKeepTools(s, Landed(s.store, p, e));
    }
  }

  lemma {:induction false} EffectsOfTools(effects: seq<Performed>, run: RunId)
    requires OnlyToolEffects(effects)
    ensures forall i :: 0 <= i < |EffectsOf(effects, run)| ==> IsToolAction(EffectsOf(effects, run)[i], run)
  {
    if effects != [] { EffectsOfTools(effects[..|effects| - 1], run); }
  }

  function OfKind(effects: seq<Action>, name: string): nat {
    if effects == [] then 0
    else OfKind(effects[..|effects| - 1], name) + if effects[|effects| - 1].name == name then 1 else 0
  }

  lemma {:induction false} OneOfAKind(effects: seq<Action>, i: nat)
    requires i < |effects|
    ensures OfKind(effects, effects[i].name) >= 1
  {
    if i < |effects| - 1 { OneOfAKind(effects[..|effects| - 1], i); }
  }

  lemma {:induction false} TwoOfAKind(effects: seq<Action>, i: nat, j: nat)
    requires i < j < |effects| && effects[i].name == effects[j].name
    ensures OfKind(effects, effects[i].name) >= 2
  {
    var init := effects[..|effects| - 1];
    if j < |effects| - 1 { TwoOfAKind(init, i, j); } else { OneOfAKind(init, i); }
  }

  /** Of one payment's effects, those of a kind are those under its key. */
  lemma {:induction false} KindIsKey(effects: seq<Action>, run: RunId, name: string)
    requires name in HANDLERS && forall i :: 0 <= i < |effects| ==> IsToolAction(effects[i], run)
    ensures OfKind(effects, name) == Under(effects, KeyFor(name, run))
  {
    if effects != [] {
      KindIsKey(effects[..|effects| - 1], run, name);
      KeysTellKindsApart(effects[|effects| - 1], Action(name, "", KeyFor(name, run), 0.0, ""), run);
    }
  }

  lemma {:induction false} SmallerSet<T>(a: set<T>, b: set<T>)
    requires a <= b
    ensures |a| <= |b|
  {
    assert b == a + (b - a);
  }

  /** A payment has at most three stored results. */
  lemma ThreeResults(results: map<(RunId, Key), IdemRecord>, run: RunId)
    requires OnlyToolResults(results)
    ensures |StoredOf(results, run)| <= 3
  {
    var stored := StoredOf(results, run);
    assert stored.Keys <= KeysOf(run);
    SmallerSet(stored.Keys, KeysOf(run));
    assert |stored| == |stored.Keys|;
  }

  /** Wherever calls die: a payment's effects are tool actions, those of one kind exceed one, and all together
      exceed three, by at most the deaths inside calls on that payment. */
  lemma EffectsPerDeath(p: Policy, events: seq<Event>, run: RunId, name: string)
    requires FreshEvents(START, p, events) && ToolEvents(events) && name in HANDLERS
    ensures var seen := EffectsOf(RunEvents(START, p, events).effects, run);
            && (forall i :: 0 <= i < |seen| ==> IsToolAction(seen[i], run))
            && OfKind(seen, name) <= 1 + Crashes(events, run)
            && |seen| <= 3 + Crashes(events, run)
  {
    var s := RunEvents(START, p, events);
    var seen := EffectsOf(s.effects, run);
    EventsKeepTools(p, events);
    EffectsOfTools(s.effects, run);
    KindIsKey(seen, run, name);
    EffectsPerKey(p, events, run, KeyFor(name, run));
    CrashesKeepOrder(p, events, run);
    ThreeResults(s.store.results, run);
  }

  // ---------------------------------------------------------------- the budget outlasts the deaths

  predicate OverBudget(c: Commit) { c.Audit? && c.decision == Verdict(RejectedActionBudget) }

  ghost predicate NeverOverBudget(log: seq<AuditEntry>) {
    forall j :: 0 <= j < |log| ==> log[j].decision != Verdict(RejectedActionBudget)
  }

  /** Every tool action of the run has its result stored or budget left. */
  ghost predicate HasRoom(p: Policy, v: RunView, run: RunId) {
    forall a: Action :: IsToolAction(a, run) ==>
        (run, a.key) in v.stored || CountIn(v.counts, run, a.subject) < p.budget
  }

  lemma CountWithinSum(counts: map<(RunId, Subject), nat>, run: RunId, subject: Subject)
    ensures CountIn(counts, run, subject) <= Sum(counts)
  {
    if (run, subject) in counts { SumTakes(counts, (run, subject)); }
  }

  /** While a key has no result, at most two results are stored. */
  lemma TwoResults(stored: map<(RunId, Key), IdemRecord>, run: RunId, a: Action)
    requires stored.Keys <= KeysOf(run) && IsToolAction(a, run) && (run, a.key) !in stored
    ensures |stored| <= 2
  {
    var left := KeysOf(run) - {(run, a.key)};
    SmallerSet(stored.Keys, left);
    assert |stored| == |stored.Keys|;
  }

  lemma OrderLeavesRoom(p: Policy, v: RunView, run: RunId, crashes: nat)
    requires InOrder(v, crashes) && v.stored.Keys <= KeysOf(run) && p.budget >= 3 + crashes
    ensures HasRoom(p, v, run)
  {
    forall a: Action | IsToolAction(a, run) && (run, a.key) !in v.stored
      ensures CountIn(v.counts, run, a.subject) < p.budget
    {
      TwoResults(v.stored, run, a);
      CountWithinSum(v.counts, run, a.subject);
    }
  }

  lemma ChainSpares(q: Answers, p: Policy, run: RunId, registered: set<string>, a: Action, out: Outcome,
                    minted: ApprovalId)
    requires q.stored.Some? || q.used < p.budget
    ensures forall i :: 0 <= i < |ChainCommits(q, p, run, registered, a, out, minted)| ==>
              !OverBudget(ChainCommits(q, p, run, registered, a, out, minted)[i])
  {
  }

  /** The action a call is about is one of the payment's tools. */
  ghost predicate AboutTool(v: RunView, c: Call) {
    match c
    case Execute(run, _, a, _, _) => IsToolAction(a, run)
    case Approve(run, _, id, _, _) => id in v.approvals ==> IsToolAction(v.approvals[id].action, run)
    case Reject(_, _) => true
  }

  lemma CallSpares(p: Policy, v: RunView, c: Call)
    requires HasRoom(p, v, c.run) && AboutTool(v, c)
    ensures forall i :: 0 <= i < |CommitsOnView(v, p, c)| ==> !OverBudget(CommitsOnView(v, p, c)[i])
  {
    match c
    case Execute(run, reg, a, out, minted) =>
      ChainSpares(AskView(v, run, a), p, run, reg, a, out, minted);
    case Approve(run, reg, id, out, minted) =>
      if id in v.approvals {
        var a := v.approvals[id].action;
        ChainSpares(AskView(v, run, a), p, run, reg, a, out, minted);
        ChainSpares(AskView(OnView(v, run, Decide(id, Approved)), run, a), p, run, reg, a, out, minted);
      }
    case Reject(_, _) =>
  }

  lemma {:induction false} SparedWrites(v: RunView, run: RunId, cs: seq<Commit>)
    requires NeverOverBudget(v.log) && forall i :: 0 <= i < |cs| ==> !OverBudget(cs[i])
    ensures NeverOverBudget(OnViewAll(v, run, cs).log)
  {
    if cs != [] { SparedWrites(v, run, cs[..|cs| - 1]); }
  }

  /** The payment's records and results are of its tools. */
  lemma ToolView(s: System, c: Call)
    requires OnlyTools(s) && (c.Execute? ==> IsToolAction(c.action, c.run))
    ensures View(s, c.run).stored.Keys <= KeysOf(c.run) && AboutTool(View(s, c.run), c)
  {
  }

  lemma EventSpares(p: Policy, before: System, c: Call, n: nat, crashes: nat)
    requires OnlyTools(before) && (c.Execute? ==> IsToolAction(c.action, c.run))
    requires InOrder(View(before, c.run), crashes) && NeverOverBudget(View(before, c.run).log)
    requires p.budget >= 3 + crashes
    requires n <= |CommitsOnView(View(before, c.run), p, c)|
    ensures NeverOverBudget(OnViewAll(View(before, c.run), c.run, CommitsOnView(View(before, c.run), p, c)[..n]).log)
  {
    var v := View(before, c.run);
    ToolView(before, c);
    OrderLeavesRoom(p, v, c.run, crashes);
    CallSpares(p, v, c);
    SparedWrites(v, c.run, CommitsOnView(v, p, c)[..n]);
  }

  /** Wherever calls die, a budget of three actions and one more per death inside a call on the payment never
      rejects an action there. */
  lemma {:induction false} BudgetOutlastsDeaths(p: Policy, events: seq<Event>, run: RunId)
    requires FreshEvents(START, p, events) && ToolEvents(events) && p.budget >= 3 + Crashes(events, run)
    ensures NeverOverBudget(View(RunEvents(START, p, events), run).log)
  {
    if events != [] {
      var init, e := events[..|events| - 1], events[|events| - 1];
      assert ToolEvents(init);
      BudgetOutlastsDeaths(p, init, run);
      EventsStayWellFormed(p, init);
      var before := RunEvents(START, p, init);
      var n := |Landed(before.store, p, e)|;
      assert Landed(before.store, p, e) == Commits(before.store, p, e.call)[..n];
      EventMovesItsRun(before, p, e.call, n, run);
      if e.call.run == run {
        EventsKeepTools(p, init);
        CrashesKeepOrder(p, init, run);
        EventSpares(p, before, e.call, n, Crashes(init, run));
      }
    }
  }

  lemma {:induction false} WholesAreTools(calls: seq<Call>, run: RunId)
    requires ToolCalls(calls)
    ensures ToolEvents(Wholes(calls)) && Crashes(Wholes(calls), run) == 0
  {
    if calls != [] {
      WholesAreTools(calls[..|calls| - 1], run);
      var init, e := Wholes(calls[..|calls| - 1]), Whole(calls[|calls| - 1]);
      assert (init + [e])[..|init|] == init;
    }
  }

  /** So where every call finishes, a budget of three, or more such as the default five, never rejects. */
  lemma BudgetOfThreeNeverRejects(p: Policy, calls: seq<Call>, run: RunId)
    requires FreshIds(START, p, calls) && ToolCalls(calls) && p.budget >= 3
    ensures NeverOverBudget(Log(RunAll(START, p, calls).store.audit, run))
  {
    WholesRun(START, p, calls);
    WholesAreTools(calls, run);
    BudgetOutlastsDeaths(p, Wholes(calls), run);
  }

  // ---------------------------------------------------------------- and one action less would not

  /** A run of one subject in which `used` free actions were recorded and those under `done` finished. */
  ghost predicate Worn(s: System, run: RunId, subject: Subject, used: nat, done: set<Key>) {
    && s.store.approvals == map[] && s.store.byKey == map[] && !Open(s.store, run)
    && Spend(s.store, run) == 0.0 && Count(s.store, run, subject) == used
    && forall key :: (run, key) in s.store.results <==> key in done
  }

  /** A free action of the payment on its way through the executor. */
  function Asked(run: RunId, subject: Subject, name: string): Call {
    Execute(run, HANDLERS, Action(name, subject, KeyFor(name, run), 0.0, ""), Returned(""), "")
  }

  lemma AskedCommits(p: Policy, s: System, run: RunId, subject: Subject, name: string, used: nat, done: set<Key>)
    requires Worn(s, run, subject, used, done) && name in HANDLERS && KeyFor(name, run) !in done
    requires p.threshold >= 0.0 && p.cap >= 0.0
    ensures Fresh(s.store, Asked(run, subject, name))
    ensures var c := Asked(run, subject, name);
            Commits(s.store, p, c) ==
              if used >= p.budget then [Audit(run, c.action, Verdict(RejectedActionBudget))]
              else EffectCommits(run, c.action, c.outcome)
  {
  }

  /** A death right after the record wears the budget down and leaves nothing finished. */
  lemma CutWears(p: Policy, s: System, run: RunId, subject: Subject, name: string, used: nat, done: set<Key>)
    requires Worn(s, run, subject, used, done) && name in HANDLERS && KeyFor(name, run) !in done && used < p.budget
    requires p.threshold >= 0.0 && p.cap >= 0.0
    ensures Worn(EventOn(s, p, Cut(Asked(run, subject, name), 2)), run, subject, used + 1, done)
  {
    var c := Asked(run, subject, name);
    AskedCommits(p, s, run, subject, name, used, done);
    var cs := EffectCommits(run, c.action, c.outcome);
    assert cs[..2] == [cs[0], cs[1]];
    ApplyAll2(s, cs[0], cs[1]);
  }

  lemma WholeWears(p: Policy, s: System, run: RunId, subject: Subject, name: string, used: nat, done: set<Key>)
    requires Worn(s, run, subject, used, done) && name in HANDLERS && KeyFor(name, run) !in done && used < p.budget
    requires p.threshold >= 0.0 && p.cap >= 0.0
    ensures Worn(EventOn(s, p, Whole(Asked(run, subject, name))), run, subject, used + 1, done + {KeyFor(name, run)})
  {
    var c := Asked(run, subject, name);
    AskedCommits(p, s, run, subject, name, used, done);
    var cs := EffectCommits(run, c.action, c.outcome);
    assert cs == [cs[0], cs[1], cs[2], cs[3]];
    ApplyAll4(s, cs[0], cs[1], cs[2], cs[3]);
  }

  /** Events of one subject that wore its budget down. */
  ghost predicate Wearing(p: Policy, events: seq<Event>, run: RunId, subject: Subject, used: nat, done: set<Key>,
                          deaths: nat) {
    && FreshEvents(START, p, events) && ToolEvents(events) && Crashes(events, run) == deaths
    && Worn(RunEvents(START, p, events), run, subject, used, done)
  }

  lemma OneMoreToolEvent(p: Policy, events: seq<Event>, e: Event, run: RunId)
    requires FreshEvents(START, p, events) && ToolEvents(events) && Fresh(RunEvents(START, p, events).store, e.call)
    requires e.call.Execute? && IsToolAction(e.call.action, run) && e.call.run == run
    ensures FreshEvents(START, p, events + [e]) && ToolEvents(events + [e])
    ensures Crashes(events + [e], run) == Crashes(events, run) + if e.Cut? then 1 else 0
    ensures RunEvents(START, p, events + [e]) == EventOn(RunEvents(START, p, events), p, e)
  {
    EventSnoc(START, p, events, e);
    ToolEventsSnoc(events, e);
    CrashesSnoc(events, e, run);
  }

  lemma ToolEventsSnoc(events: seq<Event>, e: Event)
    requires ToolEvents(events) && (e.call.Execute? ==> IsToolAction(e.call.action, e.call.run))
    ensures ToolEvents(events + [e])
  {
  }

  lemma CrashesSnoc(events: seq<Event>, e: Event, run: RunId)
    ensures Crashes(events + [e], run) == Crashes(events, run) + if e.Cut? && e.call.run == run then 1 else 0
  {
    assert (events + [e])[..|events|] == events;
  }

  lemma CutWearsOn(p: Policy, events: seq<Event>, run: RunId, subject: Subject, used: nat, deaths: nat)
    requires p.threshold >= 0.0 && p.cap >= 0.0 && used < p.budget
    requires Wearing(p, events, run, subject, used, {}, deaths)
    ensures Wearing(p, events + [Cut(Asked(run, subject, "send_payment_link"), 2)], run, subject, used + 1, {},
        deaths + 1)
  {
    var s := RunEvents(START, p, events);
    AskedCommits(p, s, run, subject, "send_payment_link", used, {});
    CutWears(p, s, run, subject, "send_payment_link", used, {});
    OneMoreToolEvent(p, events, Cut(Asked(run, subject, "send_payment_link"), 2), run);
  }

  lemma WholeWearsOn(p: Policy, events: seq<Event>, run: RunId, subject: Subject, name: string, used: nat,
                     done: set<Key>, deaths: nat)
    requires p.threshold >= 0.0 && p.cap >= 0.0 && used < p.budget && name in HANDLERS && KeyFor(name, run) !in done
    requires Wearing(p, events, run, subject, used, done, deaths)
    ensures Wearing(p, events + [Whole(Asked(run, subject, name))], run, subject, used + 1, done + {KeyFor(name, run)},
        deaths)
  {
    var s := RunEvents(START, p, events);
    AskedCommits(p, s, run, subject, name, used, done);
    WholeWears(p, s, run, subject, name, used, done);
    OneMoreToolEvent(p, events, Whole(Asked(run, subject, name)), run);
  }

  lemma RejectsAsked(p: Policy, s: System, run: RunId, subject: Subject, name: string, used: nat, done: set<Key>)
    requires Worn(s, run, subject, used, done) && name in HANDLERS && KeyFor(name, run) !in done && used >= p.budget
    requires p.threshold >= 0.0 && p.cap >= 0.0
    ensures !NeverOverBudget(Log(EventOn(s, p, Whole(Asked(run, subject, name))).store.audit, run))
  {
    var c := Asked(run, subject, name);
    AskedCommits(p, s, run, subject, name, used, done);
    ApplyAll1(s, Audit(run, c.action, Verdict(RejectedActionBudget)));
    var before := Log(s.store.audit, run);
    var entry := AuditEntry(run, |before| + 1, c.action, Verdict(RejectedActionBudget));
    LogAppend(s.store.audit, entry, run);
    assert (before + [entry])[|before|] == entry;
  }

  lemma RejectedOn(p: Policy, events: seq<Event>, run: RunId, subject: Subject, name: string, used: nat, done: set<Key>,
                   deaths: nat)
    requires p.threshold >= 0.0 && p.cap >= 0.0 && used >= p.budget && name in HANDLERS && KeyFor(name, run) !in done
    requires Wearing(p, events, run, subject, used, done, deaths)
    ensures Exhausts(p, events + [Whole(Asked(run, subject, name))], run, deaths)
  {
    var s := RunEvents(START, p, events);
    AskedCommits(p, s, run, subject, name, used, done);
    RejectsAsked(p, s, run, subject, name, used, done);
    OneMoreToolEvent(p, events, Whole(Asked(run, subject, name)), run);
  }

  /** Events with this many deaths in which an action was turned down for the budget. */
  ghost predicate Exhausts(p: Policy, events: seq<Event>, run: RunId, deaths: nat) {
    && FreshEvents(START, p, events) && ToolEvents(events) && Crashes(events, run) == deaths
    && !NeverOverBudget(View(RunEvents(START, p, events), run).log)
  }

  lemma {:induction false} DeathsWear(p: Policy, run: RunId, subject: Subject, deaths: nat) returns (events: seq<Event>)
    requires p.threshold >= 0.0 && p.cap >= 0.0 && deaths <= p.budget
    ensures Wearing(p, events, run, subject, deaths, {}, deaths)
  {
    if deaths == 0 {
      events := [];
    } else {
      var earlier := DeathsWear(p, run, subject, deaths - 1);
      CutWearsOn(p, earlier, run, subject, deaths - 1, deaths - 1);
      events := earlier + [Cut(Asked(run, subject, "send_payment_link"), 2)];
    }
  }

  /** A link that dies this often, and then a link and an escalation that do not, use up two actions more. */
  lemma UsesUp(p: Policy, run: RunId, subject: Subject, deaths: nat) returns (events: seq<Event>)
    requires p.threshold >= 0.0 && p.cap >= 0.0 && p.budget == 2 + deaths
    ensures Exhausts(p, events, run, deaths)
  {
    events := DeathsWear(p, run, subject, deaths);
    var link, escalation := KeyFor("send_payment_link", run), KeyFor("escalate_to_human", run);
    assert link[0] != escalation[0] && KeyFor("refund", run)[0] !in {link[0], escalation[0]};
    WholeWearsOn(p, events, run, subject, "send_payment_link", deaths, {}, deaths);
    events := events + [Whole(Asked(run, subject, "send_payment_link"))];
    WholeWearsOn(p, events, run, subject, "escalate_to_human", deaths + 1, {} + {link}, deaths);
    events := events + [Whole(Asked(run, subject, "escalate_to_human"))];
    RejectedOn(p, events, run, subject, "refund", deaths + 2, {} + {link} + {escalation}, deaths);
    events := events + [Whole(Asked(run, subject, "refund"))];
  }

  /** A budget of one or less is used up without any death. */
  lemma UsesUpOne(p: Policy, run: RunId, subject: Subject) returns (events: seq<Event>)
    requires p.threshold >= 0.0 && p.cap >= 0.0 && p.budget <= 1
    ensures Exhausts(p, events, run, 0)
  {
    assert Wearing(p, [], run, subject, 0, {}, 0);
    var link, escalation := KeyFor("send_payment_link", run), KeyFor("escalate_to_human", run);
    assert link[0] != escalation[0];
    if p.budget == 1 {
      WholeWearsOn(p, [], run, subject, "send_payment_link", 0, {}, 0);
      events := [] + [Whole(Asked(run, subject, "send_payment_link"))];
      RejectedOn(p, events, run, subject, "escalate_to_human", 1, {} + {link}, 0);
      events := events + [Whole(Asked(run, subject, "escalate_to_human"))];
    } else {
      RejectedOn(p, [], run, subject, "send_payment_link", 0, {}, 0);
      events := [] + [Whole(Asked(run, subject, "send_payment_link"))];
    }
  }

  /** Which budgets never reject an action of a payment on which at most this many calls die: exactly those
      of three actions and one more per death. */
  lemma BudgetOutlastsExactly(p: Policy, run: RunId, deaths: nat)
    requires p.threshold >= 0.0 && p.cap >= 0.0
    ensures (forall events :: FreshEvents(START, p, events) && ToolEvents(events) && Crashes(events, run) <= deaths ==>
               NeverOverBudget(View(RunEvents(START, p, events), run).log))
       <==> p.budget >= 3 + deaths
  {
    if p.budget >= 3 + deaths {
      forall events | FreshEvents(START, p, events) && ToolEvents(events) && Crashes(events, run) <= deaths
        ensures NeverOverBudget(View(RunEvents(START, p, events), run).log)
      {
        BudgetOutlastsDeaths(p, events, run);
      }
    } else if p.budget <= 1 {
      var events := UsesUpOne(p, run, "");
    } else {
      var events := UsesUp(p, run, "", p.budget - 2);
    }
  }
}
