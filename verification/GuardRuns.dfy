/** Whole runs: any sequence of calls on executors of any number of runs, and what both stores make of it. */
module GuardRuns {
  import opened GuardModel

  function RunAll(sys: System, p: Policy, calls: seq<Call>): System {
    if calls == [] then sys
    else CallOn(RunAll(sys, p, calls[..|calls| - 1]), p, calls[|calls| - 1])
  }

  function Replies(sys: System, p: Policy, calls: seq<Call>): seq<Reply> {
    if calls == [] then []
    else
      var init := calls[..|calls| - 1];
      Replies(sys, p, init) + [ReplyTo(RunAll(sys, p, init).store, p, calls[|calls| - 1])]
  }

  /** The id generator never repeats an id that is already stored. */
  predicate FreshIds(sys: System, p: Policy, calls: seq<Call>) {
    calls == []
    || (var init := calls[..|calls| - 1];
        FreshIds(sys, p, init) && Fresh(RunAll(sys, p, init).store, calls[|calls| - 1]))
  }

  lemma RunSnoc(sys: System, p: Policy, calls: seq<Call>, c: Call)
    ensures RunAll(sys, p, calls + [c]) == CallOn(RunAll(sys, p, calls), p, c)
    ensures Replies(sys, p, calls + [c]) == Replies(sys, p, calls) + [ReplyTo(RunAll(sys, p, calls).store, p, c)]
    ensures FreshIds(sys, p, calls + [c]) <==> FreshIds(sys, p, calls) && Fresh(RunAll(sys, p, calls).store, c)
  {
    assert (calls + [c])[..|calls|] == calls;
  }

  /** `c` is `a` and then `b`. */
  lemma {:induction false} RunsConcat(s: System, p: Policy, a: seq<Call>, b: seq<Call>, c: seq<Call>)
    requires c == a + b
    ensures RunAll(s, p, c) == RunAll(RunAll(s, p, a), p, b)
    ensures FreshIds(s, p, c) <==> FreshIds(s, p, a) && FreshIds(RunAll(s, p, a), p, b)
    decreases |b|
  {
    if b == [] {
      assert c == a;
    } else {
      var init := b[..|b| - 1];
      assert c[..|c| - 1] == a + init && c[|c| - 1] == b[|b| - 1];
      RunsConcat(s, p, a, init, c[..|c| - 1]);
    }
  }

  lemma {:induction false} FreshPrefix(sys: System, p: Policy, calls: seq<Call>, n: nat)
    requires FreshIds(sys, p, calls) && n <= |calls|
    ensures FreshIds(sys, p, calls[..n])
    decreases |calls|
  {
    if n == |calls| {
      assert calls[..n] == calls;
    } else {
      assert calls[..|calls| - 1][..n] == calls[..n];
      FreshPrefix(sys, p, calls[..|calls| - 1], n);
    }
  }

  lemma {:induction false} NextCallIsFresh(sys: System, p: Policy, calls: seq<Call>, i: nat)
    requires FreshIds(sys, p, calls) && i < |calls|
    ensures Fresh(RunAll(sys, p, calls[..i]).store, calls[i])
    decreases |calls|
  {
    var init := calls[..|calls| - 1];
    if i < |init| {
      NextCallIsFresh(sys, p, init, i);
      assert init[..i] == calls[..i] && init[i] == calls[i];
    }
  }

  /** The writes of one call only ever enqueue under a fresh id and an unused key. */
  lemma CommitsKeepWellFormed(sys: System, p: Policy, c: Call, n: nat)
    requires WellFormed(sys.store) && Fresh(sys.store, c) && n <= |Commits(sys.store, p, c)|
    ensures WellFormed(ApplyAll(sys, Commits(sys.store, p, c)[..n]).store)
  {
    var cs := Commits(sys.store, p, c);
    if n > 0 {
      CommitsKeepWellFormed(sys, p, c, n - 1);
      assert cs[..n][..n - 1] == cs[..n - 1];
      var before := ApplyAll(sys, cs[..n - 1]);
      if cs[n - 1].Enqueue? {
        EnqueueComesFirst(sys.store, p, c, n - 1);
        if n == 2 {
          assert cs[..1] == [cs[0]];
          ApplyAll1(sys, cs[0]);
        }
      }
      ApplyKeepsWellFormed(before.store, cs[n - 1]);
    }
  }

  /** An enqueueing write is the first write of its call, or follows only the decision of an `approve`. */
  lemma EnqueueComesFirst(st: Store, p: Policy, c: Call, i: nat)
    requires Fresh(st, c) && i < |Commits(st, p, c)| && Commits(st, p, c)[i].Enqueue?
    ensures i <= 1 && (i == 1 ==> Commits(st, p, c)[0].Decide?)
    ensures var r := Commits(st, p, c)[i].pending;
            r.id == c.minted && r.id !in st.approvals && (r.run, r.action.key) !in st.byKey
  {
  }

  lemma {:induction false} RunsStayWellFormed(sys: System, p: Policy, calls: seq<Call>)
    requires WellFormed(sys.store) && FreshIds(sys, p, calls)
    ensures WellFormed(RunAll(sys, p, calls).store)
  {
    if calls != [] {
      var init := calls[..|calls| - 1];
      RunsStayWellFormed(sys, p, init);
      var mid := RunAll(sys, p, init);
      var c := calls[|calls| - 1];
      var cs := Commits(mid.store, p, c);
      CommitsKeepWellFormed(mid, p, c, |cs|);
      assert cs[..|cs|] == cs;
    }
  }
}
