/** What waits for approval on a payment: at most one record, and it holds the refund. */
module RefundRecords {
  import opened GuardModel
  import opened GuardRuns
  import opened GuardCrash
  import opened RecoveryTools
  import opened RecoveryCrash

  predicate Gated(p: Policy, r: Approval) { IsToolAction(r.action, r.run) && r.action.cost > p.threshold }

  /** Every record holds a tool action above the threshold. */
  ghost predicate AllGated(p: Policy, st: Store) {
    forall id :: id in st.approvals ==> Gated(p, st.approvals[id])
  }

  predicate FilesGated(p: Policy, c: Commit) { c.Enqueue? ==> Gated(p, c.pending) }

  lemma ChainFilesGated(q: Answers, p: Policy, run: RunId, registered: set<string>, a: Action, out: Outcome,
                        minted: ApprovalId)
    requires IsToolAction(a, run)
    ensures forall i :: 0 <= i < |ChainCommits(q, p, run, registered, a, out, minted)| ==>
              FilesGated(p, ChainCommits(q, p, run, registered, a, out, minted)[i])
  {
  }

  lemma CallFilesGated(st: Store, p: Policy, c: Call)
    requires AllGated(p, st) && (c.Execute? ==> IsToolAction(c.action, c.run))
    ensures forall i :: 0 <= i < |Commits(st, p, c)| ==> FilesGated(p, Commits(st, p, c)[i])
  {
    match c
    case Execute(run, reg, a, out, minted) => ChainFilesGated(Ask(st, run, a), p, run, reg, a, out, minted);
    case Approve(run, reg, id, out, minted) =>
      if Owned(st, run, id) {
        assert Gated(p, st.approvals[id]);
        var a := st.approvals[id].action;
        ChainFilesGated(Ask(st, run, a), p, run, reg, a, out, minted);
        ChainFilesGated(Ask(ApplyToStore(st, Decide(id, Approved)), run, a), p, run, reg, a, out, minted);
      }
    case Reject(_, _) =>
  }

  lemma {:induction false} WritesKeepGated(s: System, p: Policy, cs: seq<Commit>)
    requires AllGated(p, s.store) && forall i :: 0 <= i < |cs| ==> FilesGated(p, cs[i])
    ensures AllGated(p, ApplyAll(s, cs).store)
  {
    if cs != [] {
      WritesKeepGated(s, p, cs[..|cs| - 1]);
      assert FilesGated(p, cs[|cs| - 1]);
    }
  }

  /** What is on file stays on file, under the same id. */
  ghost predicate IndexKept(st: Store, later: Store) {
    forall rk :: rk in st.byKey ==> rk in later.byKey && later.byKey[rk] == st.byKey[rk]
  }

  predicate FilesUnder(c: Commit, rk: (RunId, Key)) { c.Enqueue? && (c.pending.run, c.pending.action.key) == rk }

  lemma {:induction false} WritesKeepIndex(s: System, cs: seq<Commit>)
    requires forall i, rk :: 0 <= i < |cs| && rk in s.store.byKey ==> !FilesUnder(cs[i], rk)
    ensures IndexKept(s.store, ApplyAll(s, cs).store)
  {
    if cs != [] {
      WritesKeepIndex(s, cs[..|cs| - 1]);
      assert forall rk :: rk in s.store.byKey ==> !FilesUnder(cs[|cs| - 1], rk);
    }
  }

  lemma EventKeepsIndex(s: System, p: Policy, c: Call, n: nat)
    requires Fresh(s.store, c) && n <= |Commits(s.store, p, c)|
    ensures IndexKept(s.store, ApplyAll(s, Commits(s.store, p, c)[..n]).store)
  {
    var cs := Commits(s.store, p, c);
    forall i, rk | 0 <= i < n && rk in s.store.byKey ensures !FilesUnder(cs[..n][i], rk) {
      if cs[i].Enqueue? { EnqueueComesFirst(s.store, p, c, i); }
    }
    WritesKeepIndex(s, cs[..n]);
  }

  /** Sound records, all of them gated, with everything still on file that was. */
  ghost predicate Grows(p: Policy, s: System, t: System) {
    WellFormed(t.store) && AllGated(p, t.store) && IndexKept(s.store, t.store)
  }

  lemma EventGrows(p: Policy, s: System, t: System, e: Event)
    requires Grows(p, s, t) && Fresh(t.store, e.call) && (e.call.Execute? ==> IsToolAction(e.call.action, e.call.run))
    ensures Grows(p, s, EventOn(t, p, e))
  {
    var cs := Commits(t.store, p, e.call);
    var n := |Landed(t.store, p, e)|;
    assert Landed(t.store, p, e) == cs[..n];
    CommitsKeepWellFormed(t, p, e.call, n);
    CallFilesGated(t.store, p, e.call);
    WritesKeepGated(t, p, cs[..n]);
    EventKeepsIndex(t, p, e.call, n);
  }

  lemma {:induction false} EventsGrow(p: Policy, s: System, events: seq<Event>)
    requires WellFormed(s.store) && AllGated(p, s.store) && FreshEvents(s, p, events) && ToolEvents(events)
    ensures Grows(p, s, RunEvents(s, p, events))
  {
    if events != [] {
      var init, e := events[..|events| - 1], events[|events| - 1];
      assert ToolEvents(init);
      EventsGrow(p, s, init);
      EventGrows(p, s, RunEvents(s, p, init), e);
    }
  }

  /** Where a payment's refund is on file. */
  function RefundOf(run: RunId): (RunId, Key) { (run, KeyFor("refund", run)) }

  /** Links and escalations cost nothing, so with a threshold of zero or more every record is a refund's, and
      a payment has one at most. */
  lemma RecordsAreRefunds(p: Policy, st: Store, id: ApprovalId)
    requires WellFormed(st) && AllGated(p, st) && p.threshold >= 0.0 && id in st.approvals
    ensures var r := st.approvals[id];
            && r.action.name == "refund" && r.action.key == KeyFor("refund", r.run)
            && RefundOf(r.run) in st.byKey && st.byKey[RefundOf(r.run)] == id
  {
    assert Gated(p, st.approvals[id]);
  }

  /** So what waits on a payment is its refund's record, if that is undecided, and nothing else. */
  lemma RefundWaitsAlone(p: Policy, st: Store, run: RunId)
    requires WellFormed(st) && AllGated(p, st) && p.threshold >= 0.0
    ensures PendingOf(st, run) ==
            if RefundOf(run) in st.byKey && st.approvals[st.byKey[RefundOf(run)]].state == Pending
            then {st.byKey[RefundOf(run)]} else {}
  {
    forall id | id in PendingOf(st, run) ensures RefundOf(run) in st.byKey && id == st.byKey[RefundOf(run)] {
      RecordsAreRefunds(p, st, id);
    }
  }
}
