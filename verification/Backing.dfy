/** What the guard layer holds was done was done, wherever calls die: behind every stored result and every entry
    that says executed or duplicate there is an effect. */
module Backing {
  import opened GuardModel
  import opened GuardRuns
  import opened RunViews
  import opened Isolation
  import opened GuardCrash

  predicate IsDone(d: Decision) { d in {Verdict(Executed), Verdict(Duplicate)} }

  predicate Happened(effects: seq<Action>, key: Key) { Under(effects, key) >= 1 }

  /** Every stored result and every entry that says executed or duplicate has an effect under its key. */
  ghost predicate Backed(v: RunView, run: RunId) {
    && (forall key :: (run, key) in v.stored ==> Happened(v.effects, key))
    && (forall i :: 0 <= i < |v.log| && IsDone(v.log[i].decision) ==> Happened(v.effects, v.log[i].action.key))
  }

  predicate Confirms(c: Commit, key: Key) {
    (c.Put? && c.key == key) || (c.Audit? && IsDone(c.decision) && c.action.key == key)
  }

  predicate Brings(c: Commit, key: Key) { c.Effect? && c.action.key == key }

  /** What a write confirms happened before the writes or is brought by an earlier one. */
  ghost predicate Supported(effects: seq<Action>, cs: seq<Commit>) {
    forall i, key :: 0 <= i < |cs| && Confirms(cs[i], key) ==>
      Happened(effects, key) || exists j :: 0 <= j < i && Brings(cs[j], key)
  }

  lemma WriteGrowsEffects(v: RunView, run: RunId, c: Commit, key: Key)
    requires OnRun(c, run)
    ensures Under(OnView(v, run, c).effects, key) == Under(v.effects, key) + if Brings(c, key) then 1 else 0
  {
    if c.Effect? { UnderSnoc(v.effects, c.action, key); }
  }

  lemma {:induction false} WritesGrowEffects(v: RunView, run: RunId, cs: seq<Commit>, key: Key)
    requires AllOnRun(cs, run)
    ensures Under(OnViewAll(v, run, cs).effects, key) >= Under(v.effects, key)
    ensures (exists j :: 0 <= j < |cs| && Brings(cs[j], key)) ==> Happened(OnViewAll(v, run, cs).effects, key)
  {
    if cs != [] {
      var init, last := cs[..|cs| - 1], cs[|cs| - 1];
      WritesGrowEffects(v, run, init, key);
      WriteGrowsEffects(OnViewAll(v, run, init), run, last, key);
      forall j | 0 <= j < |cs| && Brings(cs[j], key) ensures Happened(OnViewAll(v, run, cs).effects, key) {
        if j < |cs| - 1 { assert Brings(init[j], key); }
      }
    }
  }

  lemma WriteKeepsBacked(v: RunView, run: RunId, c: Commit)
    requires Backed(v, run) && AllOnRun([c], run) && forall key :: Confirms(c, key) ==> Happened(v.effects, key)
    ensures Backed(OnView(v, run, c), run)
  {
    assert [c][0] == c;
    if c.Effect? {
      forall key ensures Under(v.effects + [c.action], key) >= Under(v.effects, key) {
        UnderSnoc(v.effects, c.action, key);
      }
    } else if c.Put? {
      assert Confirms(c, c.key);
    } else if c.Audit? {
      assert IsDone(c.decision) ==> Confirms(c, c.action.key);
    }
  }

  lemma {:induction false} WritesKeepBacked(v: RunView, run: RunId, cs: seq<Commit>)
    requires Backed(v, run) && AllOnRun(cs, run) && Supported(v.effects, cs)
    ensures Backed(OnViewAll(v, run, cs), run)
  {
    if cs != [] {
      var init, last := cs[..|cs| - 1], cs[|cs| - 1];
      SupportedPrefix(v.effects, cs, |cs| - 1);
      WritesKeepBacked(v, run, init);
      forall key | Confirms(last, key) ensures Happened(OnViewAll(v, run, init).effects, key) {
        WritesGrowEffects(v, run, init, key);
        if !Happened(v.effects, key) {
          var j :| 0 <= j < |cs| - 1 && Brings(cs[j], key);
          assert Brings(init[j], key);
        }
      }
      WriteKeepsBacked(OnViewAll(v, run, init), run, last);
    }
  }

  lemma SupportedPrefix(effects: seq<Action>, cs: seq<Commit>, n: nat)
    requires Supported(effects, cs) && n <= |cs|
    ensures Supported(effects, cs[..n])
  {
    forall i, key | 0 <= i < n && Confirms(cs[..n][i], key) && !Happened(effects, key)
      ensures exists j :: 0 <= j < i && Brings(cs[..n][j], key)
    {
      var j :| 0 <= j < i && Brings(cs[j], key);
      assert Brings(cs[..n][j], key);
    }
  }

  lemma ChainSupported(effects: seq<Action>, q: Answers, p: Policy, run: RunId, registered: set<string>, a: Action,
                       out: Outcome, minted: ApprovalId)
    requires q.stored.Some? ==> Happened(effects, a.key)
    ensures Supported(effects, ChainCommits(q, p, run, registered, a, out, minted))
  {
    var cs := ChainCommits(q, p, run, registered, a, out, minted);
    if |cs| == 4 { assert Brings(cs[0], a.key); }
  }

  lemma SupportedBehind(effects: seq<Action>, c: Commit, cs: seq<Commit>)
    requires Supported(effects, cs) && forall key :: !Confirms(c, key)
    ensures Supported(effects, [c] + cs)
  {
    var all := [c] + cs;
    forall i, key | 0 <= i < |all| && Confirms(all[i], key) && !Happened(effects, key)
      ensures exists j :: 0 <= j < i && Brings(all[j], key)
    {
      var j :| 0 <= j < i - 1 && Brings(cs[j], key);
      assert Brings(all[j + 1], key);
    }
  }

  lemma CallSupported(v: RunView, p: Policy, c: Call)
    requires Backed(v, c.run)
    ensures Supported(v.effects, CommitsOnView(v, p, c))
  {
    match c
    case Execute(run, reg, a, out, minted) =>
      ChainSupported(v.effects, AskView(v, run, a), p, run, reg, a, out, minted);
    case Approve(run, reg, id, out, minted) =>
      if id in v.approvals {
        var a := v.approvals[id].action;
        ChainSupported(v.effects, AskView(v, run, a), p, run, reg, a, out, minted);
        var w := OnView(v, run, Decide(id, Approved));
        ChainSupported(v.effects, AskView(w, run, a), p, run, reg, a, out, minted);
        SupportedBehind(v.effects, Decide(id, Approved), ChainCommits(AskView(w, run, a), p, run, reg, a, out, minted));
      }
    case Reject(_, _) =>
  }

  /** One call, finished or cut short. */
  lemma EventKeepsBacked(sys: System, p: Policy, e: Event, run: RunId)
    requires WellFormed(sys.store) && Fresh(sys.store, e.call) && Backed(View(sys, run), run)
    ensures WellFormed(EventOn(sys, p, e).store) && Backed(View(EventOn(sys, p, e), run), run)
    ensures forall key :: Under(View(EventOn(sys, p, e), run).effects, key) >= Under(View(sys, run).effects, key)
  {
    var cs := Commits(sys.store, p, e.call);
    var n := |Landed(sys.store, p, e)|;
    assert Landed(sys.store, p, e) == cs[..n];
    CommitsKeepWellFormed(sys, p, e.call, n);
    EventMovesItsRun(sys, p, e.call, n, run);
    if e.call.run == run {
      var v := View(sys, run);
      CommitShape(sys.store, p, e.call);
      CallSupported(v, p, e.call);
      SupportedPrefix(v.effects, cs, n);
      WritesKeepBacked(v, run, cs[..n]);
      forall key ensures Under(OnViewAll(v, run, cs[..n]).effects, key) >= Under(v.effects, key) {
        WritesGrowEffects(v, run, cs[..n], key);
      }
    }
  }

  /** Backed, with all that happened before. */
  ghost predicate StillBacked(sys: System, later: System, run: RunId) {
    && WellFormed(later.store) && Backed(View(later, run), run)
    && forall key :: Under(View(later, run).effects, key) >= Under(View(sys, run).effects, key)
  }

  /** Wherever calls die: no result is stored and nothing is audited as executed or duplicate without an effect
      under its key. */
  lemma {:induction false} EventsKeepBacked(sys: System, p: Policy, events: seq<Event>, run: RunId)
    requires WellFormed(sys.store) && Backed(View(sys, run), run) && FreshEvents(sys, p, events)
    ensures StillBacked(sys, RunEvents(sys, p, events), run)
  {
    if events != [] {
      EventsKeepBacked(sys, p, events[..|events| - 1], run);
      EventKeepsBacked(RunEvents(sys, p, events[..|events| - 1]), p, events[|events| - 1], run);
    }
  }

  lemma ResultsAreBacked(p: Policy, events: seq<Event>, run: RunId)
    requires FreshEvents(START, p, events)
    ensures Backed(View(RunEvents(START, p, events), run), run)
  {
    EventsKeepBacked(START, p, events, run);
  }
}
