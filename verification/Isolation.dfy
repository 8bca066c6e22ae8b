/** One run inside an interleaving: nobody else's calls change it, and its calls see nothing else. */
module Isolation {
  import opened GuardModel
  import opened GuardRuns
  import opened RunViews

  function CallOnView(v: RunView, p: Policy, c: Call): RunView {
    OnViewAll(v, c.run, CommitsOnView(v, p, c))
  }

  /** The calls made on executors of one run. */
  function Only(calls: seq<Call>, run: RunId): seq<Call> {
    if calls == [] then []
    else
      var c := calls[|calls| - 1];
      Only(calls[..|calls| - 1], run) + if c.run == run then [c] else []
  }

  /** The replies, out of those to all calls, that went to one run's executors. */
  function OnlyReplies(calls: seq<Call>, replies: seq<Reply>, run: RunId): seq<Reply>
    requires |calls| == |replies|
  {
    if calls == [] then []
    else
      var n := |calls| - 1;
      OnlyReplies(calls[..n], replies[..n], run) + if calls[n].run == run then [replies[n]] else []
  }

  lemma ChainOnRun(q: Answers, p: Policy, run: RunId, registered: set<string>, a: Action, out: Outcome,
                   minted: ApprovalId)
    ensures AllOnRun(ChainCommits(q, p, run, registered, a, out, minted), run)
  {
  }

  lemma CommitsOnRun(st: Store, p: Policy, c: Call)
    ensures AllOnRun(Commits(st, p, c), c.run)
  {
    match c
    case Execute(run, reg, a, out, minted) => ChainOnRun(Ask(st, run, a), p, run, reg, a, out, minted);
    case Approve(run, reg, id, out, minted) =>
      if Owned(st, run, id) {
        var a := st.approvals[id].action;
        ChainOnRun(Ask(st, run, a), p, run, reg, a, out, minted);
        ChainOnRun(Ask(ApplyToStore(st, Decide(id, Approved)), run, a), p, run, reg, a, out, minted);
      }
    case Reject(_, _) =>
  }

  /** A call writes on its own run only, and enqueues at most once. */
  lemma CommitShape(st: Store, p: Policy, c: Call)
    requires Fresh(st, c)
    ensures EnqueuesFresh(st, Commits(st, p, c)) && AllOnRun(Commits(st, p, c), c.run)
  {
    var cs := Commits(st, p, c);
    CommitsOnRun(st, p, c);
    forall i | 0 <= i < |cs| && cs[i].Enqueue?
      ensures cs[i].pending.id !in st.approvals && forall j :: 0 <= j < i ==> !cs[j].Enqueue?
    {
      EnqueueComesFirst(st, p, c, i);
    }
  }

  lemma DecidedRecordsAreOwned(st: Store, p: Policy, c: Call)
    ensures forall i :: 0 <= i < |Commits(st, p, c)| && Commits(st, p, c)[i].Decide? ==>
              Owned(st, c.run, Commits(st, p, c)[i].id)
  {
  }

  lemma {:induction false} OthersUnmoved(v: RunView, mine: RunId, run: RunId, cs: seq<Commit>)
    requires run != mine
    requires AllOnRun(cs, mine) && forall i :: 0 <= i < |cs| && cs[i].Decide? ==> cs[i].id !in v.approvals
    ensures OnViewAll(v, run, cs) == v
  {
    if cs != [] { OthersUnmoved(v, mine, run, cs[..|cs| - 1]); }
  }

  /** A call moves the view of its own run, as that view alone decides, and no other. */
  lemma CallMovesItsRun(sys: System, p: Policy, c: Call, run: RunId)
    requires WellFormed(sys.store) && Fresh(sys.store, c)
    ensures View(CallOn(sys, p, c), run) == if c.run == run then CallOnView(View(sys, run), p, c) else View(sys, run)
    ensures c.run == run ==> ReplyTo(sys.store, p, c) == ReplyToView(View(sys, run), p, c)
  {
    var cs := Commits(sys.store, p, c);
    CommitShape(sys.store, p, c);
    ViewOfApplyAll(sys, cs, run);
    if c.run == run {
      CallSeesItsRun(sys, p, c);
    } else {
      DecidedRecordsAreOwned(sys.store, p, c);
      OthersUnmoved(View(sys, run), c.run, run, cs);
    }
  }

  lemma {:induction false} RepliesLength(sys: System, p: Policy, calls: seq<Call>)
    ensures |Replies(sys, p, calls)| == |calls|
  {
    if calls != [] { RepliesLength(sys, p, calls[..|calls| - 1]); }
  }

  /** The system with everyone's calls and the one with only this run's, at the same moment. */
  ghost predicate Matches(sys: System, alone: System, run: RunId) {
    && WellFormed(sys.store) && WellFormed(alone.store)
    && View(sys, run) == View(alone, run)
    && alone.store.approvals.Keys <= sys.store.approvals.Keys
  }

  lemma MatchesStep(sys: System, alone: System, p: Policy, c: Call, run: RunId)
    requires Matches(sys, alone, run) && Fresh(sys.store, c)
    ensures c.run == run ==> Fresh(alone.store, c) && ReplyTo(sys.store, p, c) == ReplyTo(alone.store, p, c)
    ensures Matches(CallOn(sys, p, c), if c.run == run then CallOn(alone, p, c) else alone, run)
  {
    CallMovesItsRun(sys, p, c, run);
    IdsGrow(sys, p, c);
    CallStaysWellFormed(sys, p, c);
    if c.run == run {
      CallMovesItsRun(alone, p, c, run);
      IdsGrow(alone, p, c);
      CallStaysWellFormed(alone, p, c);
      CallSeesItsRun(sys, p, c);
      CallSeesItsRun(alone, p, c);
    }
  }

  lemma CallStaysWellFormed(sys: System, p: Policy, c: Call)
    requires WellFormed(sys.store) && Fresh(sys.store, c)
    ensures WellFormed(CallOn(sys, p, c).store)
  {
    var cs := Commits(sys.store, p, c);
    CommitsKeepWellFormed(sys, p, c, |cs|);
    assert cs[..|cs|] == cs;
  }

  lemma {:induction false} RunsMatch(s: System, t: System, p: Policy, calls: seq<Call>, run: RunId)
    requires Matches(s, t, run) && FreshIds(s, p, calls)
    ensures FreshIds(t, p, Only(calls, run))
    ensures Matches(RunAll(s, p, calls), RunAll(t, p, Only(calls, run)), run)
  {
    if calls != [] {
      var init, c := calls[..|calls| - 1], calls[|calls| - 1];
      RunsMatch(s, t, p, init, run);
      MatchesStep(RunAll(s, p, init), RunAll(t, p, Only(init, run)), p, c, run);
      if c.run == run {
        RunSnoc(t, p, Only(init, run), c);
      } else {
        assert Only(calls, run) == Only(init, run);
      }
    }
  }

  lemma {:induction false} RepliesMatch(s: System, t: System, p: Policy, calls: seq<Call>, run: RunId)
    requires Matches(s, t, run) && FreshIds(s, p, calls)
    ensures |Replies(s, p, calls)| == |calls|
    ensures OnlyReplies(calls, Replies(s, p, calls), run) == Replies(t, p, Only(calls, run))
  {
    RepliesLength(s, p, calls);
    if calls != [] {
      var init, c := calls[..|calls| - 1], calls[|calls| - 1];
      RepliesMatch(s, t, p, init, run);
      RunsMatch(s, t, p, init, run);
      MatchesStep(RunAll(s, p, init), RunAll(t, p, Only(init, run)), p, c, run);
      assert Replies(s, p, calls)[..|init|] == Replies(s, p, init);
      if c.run == run {
        RunSnoc(t, p, Only(init, run), c);
      } else {
        assert Only(calls, run) == Only(init, run);
      }
    }
  }

  /** Each run's part of the system, and the replies its callers get, are those of the run made alone. */
  lemma RunsAreIsolated(p: Policy, calls: seq<Call>, run: RunId)
    requires FreshIds(START, p, calls)
    ensures View(RunAll(START, p, calls), run) == View(RunAll(START, p, Only(calls, run)), run)
    ensures |Replies(START, p, calls)| == |calls|
    ensures OnlyReplies(calls, Replies(START, p, calls), run) == Replies(START, p, Only(calls, run))
  {
    RunsMatch(START, START, p, calls, run);
    RepliesMatch(START, START, p, calls, run);
  }

  /** The ids some writes enqueue. */
  function EnqueuedIds(cs: seq<Commit>): set<ApprovalId> {
    if cs == [] then {}
    else
      var last := cs[|cs| - 1];
      EnqueuedIds(cs[..|cs| - 1]) + if last.Enqueue? then {last.pending.id} else {}
  }

  lemma {:induction false} IdsGrowAll(sys: System, cs: seq<Commit>)
    ensures ApplyAll(sys, cs).store.approvals.Keys == sys.store.approvals.Keys + EnqueuedIds(cs)
  {
    if cs != [] {
      IdsGrowAll(sys, cs[..|cs| - 1]);
      IdsGrowOne(ApplyAll(sys, cs[..|cs| - 1]), cs[|cs| - 1]);
    }
  }

  lemma IdsGrowOne(sys: System, c: Commit)
    ensures Apply(sys, c).store.approvals.Keys == sys.store.approvals.Keys + if c.Enqueue? then {c.pending.id} else {}
  {
    if c.Decide? && c.id in sys.store.approvals {
      assert Apply(sys, c).store.approvals.Keys == sys.store.approvals.Keys;
    }
  }

  /** A call adds the ids its writes enqueue to the stored approvals. */
  lemma IdsGrow(sys: System, p: Policy, c: Call)
    ensures CallOn(sys, p, c).store.approvals.Keys == sys.store.approvals.Keys + EnqueuedIds(Commits(sys.store, p, c))
  {
    IdsGrowAll(sys, Commits(sys.store, p, c));
  }

  lemma {:induction false} EnqueuedWithin(cs: seq<Commit>, ids: set<ApprovalId>)
    requires forall i :: 0 <= i < |cs| && cs[i].Enqueue? ==> cs[i].pending.id in ids
    ensures EnqueuedIds(cs) <= ids
  {
    if cs != [] { EnqueuedWithin(cs[..|cs| - 1], ids); }
  }

  /** That is at most the id it minted. */
  lemma MintsAtMostOne(st: Store, p: Policy, c: Call)
    requires Fresh(st, c) && !c.Reject?
    ensures EnqueuedIds(Commits(st, p, c)) <= {c.minted}
  {
    forall i | 0 <= i < |Commits(st, p, c)| && Commits(st, p, c)[i].Enqueue?
      ensures Commits(st, p, c)[i].pending.id in {c.minted}
    {
      EnqueueComesFirst(st, p, c, i);
    }
    EnqueuedWithin(Commits(st, p, c), {c.minted});
  }
}
