/** Replaying a run's audit entries, and the proof that the audit log alone determines the
    state the store holds for that run. */
module Replay {
  import opened GuardModel
  import opened GuardRuns
  import opened RunViews
  import opened Isolation

  datatype ReplayState = ReplayState(
    executedCount: nat,
    totalCost: real,
    perSubject: map<Subject, nat>,
    decisions: map<Decision, nat>,
    breakerTripped: bool)

  const BLANK := ReplayState(0, 0.0, map[], map[], false)

  function Used(s: ReplayState, subject: Subject): nat {
    if subject in s.perSubject then s.perSubject[subject] else 0
  }

  function Tally(s: ReplayState, d: Decision): nat {
    if d in s.decisions then s.decisions[d] else 0
  }

  function Absorb(s: ReplayState, e: AuditEntry): ReplayState {
    var s := s.(decisions := s.decisions[e.decision := Tally(s, e.decision) + 1]);
    if e.decision == Verdict(RejectedSpendCap) then s.(breakerTripped := true)
    else if e.decision == Verdict(Executed) then
      s.(executedCount := s.executedCount + 1, totalCost := s.totalCost + e.action.cost,
         perSubject := s.perSubject[e.action.subject := Used(s, e.action.subject) + 1])
    else s
  }

  function Replayed(log: seq<AuditEntry>): ReplayState {
    if log == [] then BLANK else Absorb(Replayed(log[..|log| - 1]), log[|log| - 1])
  }

  lemma ReplayedSnoc(log: seq<AuditEntry>, e: AuditEntry)
    ensures Replayed(log + [e]) == Absorb(Replayed(log), e)
  {
    assert (log + [e])[..|log|] == log;
  }

  // ---------------------------------------------------------------- sorting by seq

  predicate Sorted(s: seq<AuditEntry>) {
    forall i, j :: 0 <= i < j < |s| ==> s[i].seqNo <= s[j].seqNo
  }

  /** No entry comes before `n`. */
  predicate AllFrom(s: seq<AuditEntry>, n: int) {
    forall i :: 0 <= i < |s| ==> n <= s[i].seqNo
  }

  function Insert(e: AuditEntry, s: seq<AuditEntry>): seq<AuditEntry> {
    if s == [] || e.seqNo <= s[0].seqNo then [e] + s else [s[0]] + Insert(e, s[1..])
  }

  /** Python's stable sort: an entry goes before the ones that came after it and tie with it. */
  function SortBySeq(entries: seq<AuditEntry>): seq<AuditEntry> {
    if entries == [] then [] else Insert(entries[0], SortBySeq(entries[1..]))
  }

  lemma {:induction false} InsertKeepsEntries(e: AuditEntry, s: seq<AuditEntry>)
    ensures multiset(Insert(e, s)) == multiset{e} + multiset(s)
  {
    if s == [] || e.seqNo <= s[0].seqNo {
    } else {
      InsertKeepsEntries(e, s[1..]);
      assert s == [s[0]] + s[1..];
    }
  }

  lemma {:induction false} InsertStaysFrom(e: AuditEntry, s: seq<AuditEntry>, n: int)
    requires AllFrom(s, n) && n <= e.seqNo
    ensures AllFrom(Insert(e, s), n)
  {
    if s != [] && e.seqNo > s[0].seqNo { InsertStaysFrom(e, s[1..], n); }
  }

  lemma {:induction false} InsertKeepsSorted(e: AuditEntry, s: seq<AuditEntry>)
    requires Sorted(s)
    ensures Sorted(Insert(e, s))
  {
    if s != [] && e.seqNo > s[0].seqNo {
      InsertKeepsSorted(e, s[1..]);
      InsertStaysFrom(e, s[1..], s[0].seqNo);
    }
  }

  lemma {:induction false} SortSorts(entries: seq<AuditEntry>)
    ensures Sorted(SortBySeq(entries)) && multiset(SortBySeq(entries)) == multiset(entries)
  {
    if entries != [] {
      SortSorts(entries[1..]);
      InsertKeepsSorted(entries[0], SortBySeq(entries[1..]));
      InsertKeepsEntries(entries[0], SortBySeq(entries[1..]));
      assert entries == [entries[0]] + entries[1..];
    }
  }

  /** A sorted sequence holding the entries numbered from, from + 1, ... starts with the first of them. */
  lemma SameFirst(a: seq<AuditEntry>, b: seq<AuditEntry>, from: int)
    requires Sorted(a) && multiset(a) == multiset(b) && b != []
    requires forall i :: 0 <= i < |b| ==> b[i].seqNo == from + i
    ensures a != [] && a[0] == b[0]
  {
    assert b[0] in multiset(a);
    var j :| 0 <= j < |a| && a[j] == b[0];
    assert a[0] in multiset(b);
    var i :| 0 <= i < |b| && b[i] == a[0];
  }

  /** Entries numbered in steps of one come out of any sort in that order, however they went in. */
  lemma {:induction false} SortRestoresOrder(a: seq<AuditEntry>, b: seq<AuditEntry>, from: int)
    requires Sorted(a) && multiset(a) == multiset(b)
    requires forall i :: 0 <= i < |b| ==> b[i].seqNo == from + i
    ensures a == b
    decreases |b|
  {
    if b == [] {
      assert |multiset(a)| == 0;
    } else {
      SameFirst(a, b, from);
      RestOf(a);
      RestOf(b);
      SortRestoresOrder(a[1..], b[1..], from + 1);
      assert a == [a[0]] + a[1..] && b == [b[0]] + b[1..];
    }
  }

  lemma RestOf(a: seq<AuditEntry>)
    requires a != []
    ensures multiset(a[1..]) == multiset(a) - multiset{a[0]}
    ensures Sorted(a) ==> Sorted(a[1..])
  {
    assert a == [a[0]] + a[1..];
  }

  method AbsorbNext(state: ReplayState, entry: AuditEntry) returns (next: ReplayState)
    ensures next == Absorb(state, entry)
  {
    next := state.(decisions := state.decisions[entry.decision := Tally(state, entry.decision) + 1]);
    if entry.decision == Verdict(RejectedSpendCap) {
      next := next.(breakerTripped := true);
    }
    if entry.decision == Verdict(Executed) {
      next := next.(executedCount := next.executedCount + 1, totalCost := next.totalCost + entry.action.cost,
                    perSubject := next.perSubject[entry.action.subject := Used(next, entry.action.subject) + 1]);
    }
  }

  /** Folds the entries, in any order, into the state they describe. */
  method Reconstruct(entries: seq<AuditEntry>) returns (state: ReplayState)
    ensures state == Replayed(SortBySeq(entries))
  {
    var ordered := SortBySeq(entries);
    state := BLANK;
    assert ordered[..0] == [];
    for i := 0 to |ordered|
      invariant state == Replayed(ordered[..i])
    {
      var entry := ordered[i];
      assert ordered[..i + 1] == ordered[..i] + [entry];
      ReplayedSnoc(ordered[..i], entry);
      state := AbsorbNext(state, entry);
    }
    assert ordered[..|ordered|] == ordered;
  }

  // ---------------------------------------------------------------- the log determines the state

  function ExecutedKeys(log: seq<AuditEntry>): set<Key> {
    if log == [] then {}
    else
      var e := log[|log| - 1];
      ExecutedKeys(log[..|log| - 1]) + if e.decision == Verdict(Executed) then {e.action.key} else {}
  }

  function ExecutedActions(log: seq<AuditEntry>): seq<Action> {
    if log == [] then []
    else
      var e := log[|log| - 1];
      ExecutedActions(log[..|log| - 1]) + if e.decision == Verdict(Executed) then [e.action] else []
  }

  /** What the verdict on an action must be, given only the entries before it. */
  predicate LegalAt(p: Policy, before: seq<AuditEntry>, e: AuditEntry) {
    var s := Replayed(before);
    if s.breakerTripped then e.decision == Verdict(RejectedBreakerOpen)
    else if e.action.key in ExecutedKeys(before) then e.decision == Verdict(Duplicate)
    else LegalVerdict(p, s, e)
  }

  predicate LegalVerdict(p: Policy, s: ReplayState, e: AuditEntry) {
    var withinBudget := Used(s, e.action.subject) < p.budget;
    var withinCap := s.totalCost + e.action.cost <= p.cap;
    match e.decision
    case HandlerError => withinBudget && withinCap
    case Verdict(v) =>
      match v
      case Executed => withinBudget && withinCap
      case PendingApproval => e.action.cost > p.threshold
      case RejectedActionBudget => !withinBudget
      case RejectedSpendCap => withinBudget && !withinCap
      case Duplicate => false
      case RejectedBreakerOpen => false
  }

  predicate Legal(p: Policy, log: seq<AuditEntry>) {
    log == []
    || (Legal(p, log[..|log| - 1]) && LegalAt(p, log[..|log| - 1], log[|log| - 1]))
  }

  /** A run's counters are what replaying its log gives, and its effects are the actions the log
      says were executed, in that order. */
  ghost predicate Tracks(v: RunView, run: RunId) {
    var s := Replayed(v.log);
    && s.totalCost == v.row.spend
    && s.breakerTripped == v.row.open
    && SameCounts(s.perSubject, v.counts, run)
    && (forall key :: key in ExecutedKeys(v.log) <==> (run, key) in v.stored)
    && s.executedCount == |v.stored|
    && v.effects == ExecutedActions(v.log)
  }

  ghost predicate SameCounts(perSubject: map<Subject, nat>, counts: map<(RunId, Subject), nat>, run: RunId) {
    forall subject ::
      && (subject in perSubject <==> (run, subject) in counts)
      && (subject in perSubject ==> perSubject[subject] == counts[(run, subject)])
  }

  lemma SameCountsUpdate(perSubject: map<Subject, nat>, counts: map<(RunId, Subject), nat>, run: RunId, s: Subject,
                         n: nat)
    requires SameCounts(perSubject, counts, run)
    ensures SameCounts(perSubject[s := n], counts[(run, s) := n], run)
  {
  }

  ghost predicate Sound(p: Policy, v: RunView, run: RunId) {
    Tracks(v, run) && Legal(p, v.log)
  }

  lemma LegalSnoc(p: Policy, log: seq<AuditEntry>, e: AuditEntry)
    ensures Legal(p, log + [e]) <==> Legal(p, log) && LegalAt(p, log, e)
  {
    assert (log + [e])[..|log|] == log;
  }

  lemma {:induction false} LegalEverywhere(p: Policy, log: seq<AuditEntry>, i: nat)
    requires Legal(p, log) && i < |log|
    ensures LegalAt(p, log[..i], log[i])
  {
    if i < |log| - 1 {
      assert log[..|log| - 1][..i] == log[..i];
      LegalEverywhere(p, log[..|log| - 1], i);
    }
  }

  lemma FoldsSnoc(log: seq<AuditEntry>, e: AuditEntry)
    ensures Replayed(log + [e]) == Absorb(Replayed(log), e)
    ensures ExecutedKeys(log + [e]) == ExecutedKeys(log) + if e.decision == Verdict(Executed) then {e.action.key}
        else {}
    ensures ExecutedActions(log + [e]) == ExecutedActions(log) + if e.decision == Verdict(Executed) then [e.action]
        else []
  {
    assert (log + [e])[..|log|] == log;
  }

  function EntryFor(v: RunView, run: RunId, a: Action, d: Decision): AuditEntry {
    AuditEntry(run, |v.log| + 1, a, d)
  }

  lemma QuietTracks(v: RunView, run: RunId, a: Action, d: Decision)
    requires Tracks(v, run) && d != Verdict(Executed) && d != Verdict(RejectedSpendCap)
    ensures Tracks(OnView(v, run, Audit(run, a, d)), run)
  {
    FoldsSnoc(v.log, EntryFor(v, run, a, d));
  }

  lemma TripFolds(v: RunView, run: RunId, e: AuditEntry)
    requires Tracks(v, run) && e.decision == Verdict(RejectedSpendCap)
    ensures Tracks(v.(row := v.row.(open := true), log := v.log + [e]), run)
  {
    FoldsSnoc(v.log, e);
  }

  lemma TripTracks(v: RunView, run: RunId, a: Action)
    requires Tracks(v, run)
    ensures Tracks(OnView(OnView(v, run, Trip(run)), run, Audit(run, a, Verdict(RejectedSpendCap))), run)
  {
    TripFolds(v, run, EntryFor(v, run, a, Verdict(RejectedSpendCap)));
  }

  function AfterEffect(v: RunView, run: RunId, a: Action, result: Payload): RunView {
    v.(stored := v.stored[(run, a.key) := IdemRecord(Executed, result)],
       counts := v.counts[(run, a.subject) := CountIn(v.counts, run, a.subject) + 1],
       row := RunRow(v.row.spend + a.cost, v.row.open),
       log := v.log + [EntryFor(v, run, a, Verdict(Executed))],
       effects := v.effects + [a])
  }

  lemma EffectWrites(v: RunView, run: RunId, a: Action, result: Payload)
    ensures OnViewAll(v, run, EffectCommits(run, a, Returned(result))) == AfterEffect(v, run, a, result)
  {
    OnViewSome(v, run, Effect(run, a), Record(run, a.subject, a.cost), Put(run, a.key, IdemRecord(Executed, result)),
               Audit(run, a, Verdict(Executed)));
  }

  lemma EffectTracks(v: RunView, run: RunId, a: Action, result: Payload)
    requires Tracks(v, run) && (run, a.key) !in v.stored
    ensures Tracks(AfterEffect(v, run, a, result), run)
  {
    var s := Replayed(v.log);
    FoldsSnoc(v.log, EntryFor(v, run, a, Verdict(Executed)));
    SameCountsUpdate(s.perSubject, v.counts, run, a.subject, Used(s, a.subject) + 1);
  }

  /** Only the last write of a call appends to the log. */
  lemma {:induction false} LogOfWrites(v: RunView, run: RunId, cs: seq<Commit>)
    requires forall i :: 0 <= i < |cs| ==> !cs[i].Audit?
    ensures OnViewAll(v, run, cs).log == v.log
  {
    if cs != [] { LogOfWrites(v, run, cs[..|cs| - 1]); }
  }

  /** The chain only ever writes the verdict the log so far demands. */
  lemma ChainIsLegal(p: Policy, v: RunView, run: RunId, a: Action, d: Decision)
    requires Tracks(v, run) && DecidedBy(AskView(v, run, a), p, a, d)
    ensures LegalAt(p, v.log, EntryFor(v, run, a, d))
  {
    assert Used(Replayed(v.log), a.subject) == CountIn(v.counts, run, a.subject);
    assert a.key in ExecutedKeys(v.log) <==> (run, a.key) in v.stored;
  }

  /** The verdicts the chain may reach from what it read. */
  predicate DecidedBy(q: Answers, p: Policy, a: Action, d: Decision) {
    if q.open then d == Verdict(RejectedBreakerOpen)
    else if q.stored.Some? then d == Verdict(Duplicate)
    else if d == Verdict(PendingApproval) then a.cost > p.threshold
    else if q.used >= p.budget then d == Verdict(RejectedActionBudget)
    else if q.spent + a.cost > p.cap then d == Verdict(RejectedSpendCap)
    else d == Verdict(Executed) || d == HandlerError
  }

  /** Every list of writes the chain commits is one entry it decided, alone or with its consequences. */
  lemma ChainShape(q: Answers, p: Policy, run: RunId, registered: set<string>, a: Action, out: Outcome,
                   minted: ApprovalId)
    ensures var cs := ChainCommits(q, p, run, registered, a, out, minted);
            || cs == []
            || (exists d :: cs == [Audit(run, a, d)] && DecidedBy(q, p, a, d)
                            && d != Verdict(Executed) && d != Verdict(RejectedSpendCap))
            || (exists r :: cs == [Enqueue(r), Audit(run, a, Verdict(PendingApproval))]
                            && DecidedBy(q, p, a, Verdict(PendingApproval)))
            || (cs == [Trip(run), Audit(run, a, Verdict(RejectedSpendCap))]
                && DecidedBy(q, p, a, Verdict(RejectedSpendCap)))
            || (exists result :: cs == EffectCommits(run, a, Returned(result)) && q.stored.None?
                                 && DecidedBy(q, p, a, Verdict(Executed)))
  {
    var cs := ChainCommits(q, p, run, registered, a, out, minted);
    if |cs| == 1 {
      var d := cs[0].decision;
      assert cs == [Audit(run, a, d)];
    } else if |cs| == 2 && cs[0].Enqueue? {
      assert cs == [Enqueue(cs[0].pending), Audit(run, a, Verdict(PendingApproval))];
    } else if |cs| == 4 {
      assert cs == EffectCommits(run, a, Returned(out.result));
    }
  }

  lemma ChainKeepsTracks(p: Policy, v: RunView, run: RunId, registered: set<string>, a: Action, out: Outcome,
                         minted: ApprovalId)
    requires Tracks(v, run)
    ensures Tracks(OnViewAll(v, run, ChainCommits(AskView(v, run, a), p, run, registered, a, out, minted)), run)
  {
    var q := AskView(v, run, a);
    var cs := ChainCommits(q, p, run, registered, a, out, minted);
    ChainShape(q, p, run, registered, a, out, minted);
    if d :| cs == [Audit(run, a, d)] && d != Verdict(Executed) && d != Verdict(RejectedSpendCap) {
      OnViewSome(v, run, cs[0], cs[0], cs[0], cs[0]);
      QuietTracks(v, run, a, d);
    } else if r :| cs == [Enqueue(r), Audit(run, a, Verdict(PendingApproval))] {
      OnViewSome(v, run, cs[0], cs[1], cs[1], cs[1]);
      QuietTracks(OnView(v, run, cs[0]), run, a, Verdict(PendingApproval));
    } else if cs == [Trip(run), Audit(run, a, Verdict(RejectedSpendCap))] {
      OnViewSome(v, run, cs[0], cs[1], cs[1], cs[1]);
      TripTracks(v, run, a);
    } else if result :| cs == EffectCommits(run, a, Returned(result)) {
      EffectWrites(v, run, a, result);
      EffectTracks(v, run, a, result);
    }
  }

  lemma ChainEndsWithVerdict(q: Answers, p: Policy, run: RunId, registered: set<string>, a: Action, out: Outcome,
                             minted: ApprovalId)
    ensures var cs := ChainCommits(q, p, run, registered, a, out, minted);
            cs == []
            || (var c := cs[|cs| - 1];
                c.Audit? && c == Audit(run, a, c.decision) && DecidedBy(q, p, a, c.decision))
    ensures var cs := ChainCommits(q, p, run, registered, a, out, minted);
            forall i :: 0 <= i < |cs| - 1 ==> !cs[i].Audit?
  {
  }

  lemma VerdictKeepsLegal(p: Policy, v: RunView, run: RunId, cs: seq<Commit>, a: Action, d: Decision)
    requires Tracks(v, run) && Legal(p, v.log) && DecidedBy(AskView(v, run, a), p, a, d)
    requires forall i :: 0 <= i < |cs| ==> !cs[i].Audit?
    ensures Legal(p, OnView(OnViewAll(v, run, cs), run, Audit(run, a, d)).log)
  {
    LogOfWrites(v, run, cs);
    ChainIsLegal(p, v, run, a, d);
    LegalSnoc(p, v.log, EntryFor(v, run, a, d));
  }

  lemma ChainKeepsLegal(p: Policy, v: RunView, run: RunId, registered: set<string>, a: Action, out: Outcome,
                        minted: ApprovalId)
    requires Tracks(v, run) && Legal(p, v.log)
    ensures Legal(p, OnViewAll(v, run, ChainCommits(AskView(v, run, a), p, run, registered, a, out, minted)).log)
  {
    var cs := ChainCommits(AskView(v, run, a), p, run, registered, a, out, minted);
    ChainEndsWithVerdict(AskView(v, run, a), p, run, registered, a, out, minted);
    if cs != [] {
      VerdictKeepsLegal(p, v, run, cs[..|cs| - 1], a, cs[|cs| - 1].decision);
    }
  }

  lemma CallKeepsSound(p: Policy, v: RunView, c: Call)
    requires Sound(p, v, c.run)
    ensures Sound(p, CallOnView(v, p, c), c.run)
  {
    match c
    case Execute(run, reg, a, out, minted) =>
      ChainKeepsTracks(p, v, run, reg, a, out, minted);
      ChainKeepsLegal(p, v, run, reg, a, out, minted);
    case Approve(run, reg, id, out, minted) =>
      if id in v.approvals {
        var a := v.approvals[id].action;
        var decide := Decide(id, ApprovalState.Approved);
        var v' := if v.approvals[id].state == ApprovalState.Approved then v else OnView(v, run, decide);
        ChainKeepsTracks(p, v', run, reg, a, out, minted);
        ChainKeepsLegal(p, v', run, reg, a, out, minted);
        OnViewAllConcat(v, run, [decide], ChainCommits(AskView(v', run, a), p, run, reg, a, out, minted));
        OnViewSome(v, run, decide, decide, decide, decide);
      }
    case Reject(run, id) =>
      var decide := Decide(id, ApprovalState.Rejected);
      OnViewSome(v, run, decide, decide, decide, decide);
  }

  /** Every reachable state, for every run: the log is legal and replays to the run's counters. */
  lemma {:induction false} ReachableIsSound(p: Policy, calls: seq<Call>, run: RunId)
    requires FreshIds(START, p, calls)
    ensures Sound(p, View(RunAll(START, p, calls), run), run)
  {
    if calls != [] {
      var init, c := calls[..|calls| - 1], calls[|calls| - 1];
      ReachableIsSound(p, init, run);
      RunsStayWellFormed(START, p, init);
      CallMovesItsRun(RunAll(START, p, init), p, c, run);
      if c.run == run {
        CallKeepsSound(p, View(RunAll(START, p, init), run), c);
      }
    }
  }

  /** The idempotency records the store holds for a run. */
  function StoredKeys(st: Store, run: RunId): set<(RunId, Key)> {
    set rk | rk in st.results && rk.0 == run
  }

  /** Audit replay equals state: any permutation of a run's entries reconstructs the store's spend,
      per-subject counts, number of stored results and breaker; the entries are numbered exactly 1..n. */
  lemma ReplayEqualsState(p: Policy, calls: seq<Call>, run: RunId, entries: seq<AuditEntry>)
    requires FreshIds(START, p, calls)
    requires multiset(entries) == multiset(Log(RunAll(START, p, calls).store.audit, run))
    ensures var st := RunAll(START, p, calls).store;
            var s := Replayed(SortBySeq(entries));
            && s.totalCost == Spend(st, run)
            && (forall subject :: subject in s.perSubject <==> (run, subject) in st.counts)
            && (forall subject :: Used(s, subject) == Count(st, run, subject))
            && s.executedCount == |StoredKeys(st, run)|
            && s.breakerTripped == Open(st, run)
            && Numbered(SortBySeq(entries))
  {
    var sys := RunAll(START, p, calls);
    var v := View(sys, run);
    ReachableIsSound(p, calls, run);
    RunsStayWellFormed(START, p, calls);
    assert Numbered(v.log);
    SortSorts(entries);
    SortRestoresOrder(SortBySeq(entries), v.log, 1);
    assert v.stored.Keys == StoredKeys(sys.store, run);
    assert |v.stored| == |v.stored.Keys|;
  }

  function Reported(log: seq<AuditEntry>, d: Decision): nat {
    if log == [] then 0 else Reported(log[..|log| - 1], d) + if log[|log| - 1].decision == d then 1 else 0
  }

  /** Every decision is tallied as often as it was reported. */
  lemma {:induction false} TalliesCount(log: seq<AuditEntry>, d: Decision)
    ensures Tally(Replayed(log), d) == Reported(log, d)
  {
    if log != [] { TalliesCount(log[..|log| - 1], d); }
  }

  /** The per-decision tallies: executed entries are counted once each, and the breaker is tripped
      exactly when some entry reports the spend cap. */
  lemma {:induction false} TalliesAgree(log: seq<AuditEntry>)
    ensures var s := Replayed(log);
            && (if Verdict(Executed) in s.decisions then s.decisions[Verdict(Executed)] else 0) == s.executedCount
            && (s.breakerTripped <==> Verdict(RejectedSpendCap) in s.decisions)
  {
    if log != [] { TalliesAgree(log[..|log| - 1]); }
  }
}
