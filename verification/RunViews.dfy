/** Everything the guard layer holds about one run, and how each write changes it. */
module RunViews {
  import opened Wrappers
  import opened GuardModel

  /** Tables keep their (run, x) keys, cut down to one run. */
  datatype RunView = RunView(
    stored: map<(RunId, Key), IdemRecord>,
    approvals: map<ApprovalId, Approval>,
    byKey: map<(RunId, Key), ApprovalId>,
    counts: map<(RunId, Subject), nat>,
    row: RunRow,
    log: seq<AuditEntry>,
    effects: seq<Action>)

  function StoredOf(m: map<(RunId, Key), IdemRecord>, run: RunId): map<(RunId, Key), IdemRecord> {
    map rk | rk in m && rk.0 == run :: m[rk]
  }

  function IndexOf(m: map<(RunId, Key), ApprovalId>, run: RunId): map<(RunId, Key), ApprovalId> {
    map rk | rk in m && rk.0 == run :: m[rk]
  }

  function CountsOf(m: map<(RunId, Subject), nat>, run: RunId): map<(RunId, Subject), nat> {
    map rs | rs in m && rs.0 == run :: m[rs]
  }

  function RecordsOf(m: map<ApprovalId, Approval>, run: RunId): map<ApprovalId, Approval> {
    map id | id in m && m[id].run == run :: m[id]
  }

  function EffectsOf(effects: seq<Performed>, run: RunId): seq<Action> {
    if effects == [] then []
    else
      var e := effects[|effects| - 1];
      EffectsOf(effects[..|effects| - 1], run) + if e.run == run then [e.action] else []
  }

  function View(sys: System, run: RunId): RunView {
    var st := sys.store;
    RunView(StoredOf(st.results, run), RecordsOf(st.approvals, run), IndexOf(st.byKey, run), CountsOf(st.counts, run),
            RowOf(st, run), Log(st.audit, run), EffectsOf(sys.effects, run))
  }

  function CountIn(counts: map<(RunId, Subject), nat>, run: RunId, s: Subject): nat {
    if (run, s) in counts then counts[(run, s)] else 0
  }

  /** How a write changes the view of `run`. */
  function OnView(v: RunView, run: RunId, c: Commit): RunView {
    match c
    case Enqueue(r) =>
      if r.run == run then v.(approvals := v.approvals[r.id := r], byKey := v.byKey[(run, r.action.key) := r.id]) else v
    case Decide(id, s) =>
      if id in v.approvals then v.(approvals := v.approvals[id := v.approvals[id].(state := s)]) else v
    case Trip(r) => if r == run then v.(row := v.row.(open := true)) else v
    case Effect(r, a) => if r == run then v.(effects := v.effects + [a]) else v
    case Record(r, s, cost) =>
      if r == run then v.(counts := v.counts[(run, s) := CountIn(v.counts, run, s) + 1],
          row := v.row.(spend := v.row.spend + cost)) else v
    case Put(r, k, rec) => if r == run then v.(stored := v.stored[(run, k) := rec]) else v
    case Audit(r, a, d) =>
      if r == run then v.(log := v.log + [AuditEntry(run, |v.log| + 1, a, d)]) else v
  }

  function OnViewAll(v: RunView, run: RunId, cs: seq<Commit>): RunView {
    if cs == [] then v else OnView(OnViewAll(v, run, cs[..|cs| - 1]), run, cs[|cs| - 1])
  }

  lemma RecordsUpdate(m: map<ApprovalId, Approval>, r: Approval, run: RunId)
    requires r.id in m ==> m[r.id].run == r.run
    ensures RecordsOf(m[r.id := r], run) == if r.run == run then RecordsOf(m, run)[r.id := r] else RecordsOf(m, run)
  {
  }

  lemma DecideUpdate(m: map<ApprovalId, Approval>, id: ApprovalId, s: ApprovalState, run: RunId)
    requires id in m
    ensures RecordsOf(m[id := m[id].(state := s)], run)
         == if m[id].run == run then RecordsOf(m, run)[id := m[id].(state := s)] else RecordsOf(m, run)
  {
  }

  lemma IndexUpdate(m: map<(RunId, Key), ApprovalId>, r: RunId, k: Key, id: ApprovalId, run: RunId)
    ensures IndexOf(m[(r, k) := id], run) == if r == run then IndexOf(m, run)[(r, k) := id] else IndexOf(m, run)
  {
  }

  lemma ViewOfEnqueue(sys: System, r: Approval, run: RunId)
    requires r.id !in sys.store.approvals
    ensures View(Apply(sys, Enqueue(r)), run) == OnView(View(sys, run), run, Enqueue(r))
  {
    RecordsUpdate(sys.store.approvals, r, run);
    IndexUpdate(sys.store.byKey, r.run, r.action.key, r.id, run);
  }

  lemma ViewOfDecide(sys: System, id: ApprovalId, s: ApprovalState, run: RunId)
    ensures View(Apply(sys, Decide(id, s)), run) == OnView(View(sys, run), run, Decide(id, s))
  {
    if id in sys.store.approvals { DecideUpdate(sys.store.approvals, id, s, run); }
  }

  lemma CountsUpdate(m: map<(RunId, Subject), nat>, r: RunId, s: Subject, n: nat, run: RunId)
    ensures CountsOf(m[(r, s) := n], run) == if r == run then CountsOf(m, run)[(r, s) := n] else CountsOf(m, run)
  {
  }

  lemma CountsRecord(m: map<(RunId, Subject), nat>, r: RunId, s: Subject, run: RunId)
    ensures CountsOf(m[(r, s) := CountIn(m, r, s) + 1], run) ==
            if r == run then CountsOf(m, run)[(run, s) := CountIn(CountsOf(m, run), run, s) + 1] else CountsOf(m, run)
  {
    CountsUpdate(m, r, s, CountIn(m, r, s) + 1, run);
    assert CountIn(CountsOf(m, run), run, s) == CountIn(m, run, s);
  }

  lemma RowRecord(st: Store, r: RunId, s: Subject, cost: real, run: RunId)
    ensures RowOf(ApplyToStore(st, Record(r, s, cost)), run)
         == if r == run then RowOf(st, run).(spend := RowOf(st, run).spend + cost) else RowOf(st, run)
    ensures ApplyToStore(st, Record(r, s, cost)).counts == st.counts[(r, s) := CountIn(st.counts, r, s) + 1]
  {
  }

  lemma ViewOfRecord(sys: System, r: RunId, s: Subject, cost: real, run: RunId)
    ensures View(Apply(sys, Record(r, s, cost)), run) == OnView(View(sys, run), run, Record(r, s, cost))
  {
    CountsRecord(sys.store.counts, r, s, run);
    RowRecord(sys.store, r, s, cost, run);
  }

  lemma ViewOfTrip(sys: System, r: RunId, run: RunId)
    ensures View(Apply(sys, Trip(r)), run) == OnView(View(sys, run), run, Trip(r))
  {
  }

  lemma ViewOfEffect(sys: System, r: RunId, a: Action, run: RunId)
    ensures View(Apply(sys, Effect(r, a)), run) == OnView(View(sys, run), run, Effect(r, a))
  {
    assert (sys.effects + [Performed(r, a)])[..|sys.effects|] == sys.effects;
  }

  lemma ViewOfPut(sys: System, r: RunId, k: Key, record: IdemRecord, run: RunId)
    ensures View(Apply(sys, Put(r, k, record)), run) == OnView(View(sys, run), run, Put(r, k, record))
  {
    var m := sys.store.results;
    assert StoredOf(m[(r, k) := record], run) == if r == run then StoredOf(m, run)[(r, k) := record]
        else StoredOf(m, run);
  }

  lemma LogUpdate(audit: seq<AuditEntry>, e: AuditEntry, run: RunId)
    ensures Log(audit + [e], run) == if e.run == run then Log(audit, run) + [e] else Log(audit, run)
  {
    LogAppend(audit, e, run);
    assert Log(audit, run) + [] == Log(audit, run);
  }

  lemma ViewOfAudit(sys: System, r: RunId, a: Action, d: Decision, run: RunId)
    ensures View(Apply(sys, Audit(r, a, d)), run) == OnView(View(sys, run), run, Audit(r, a, d))
  {
    LogUpdate(sys.store.audit, AuditEntry(r, |Log(sys.store.audit, r)| + 1, a, d), run);
  }

  /** Writes change each run's view as `OnView` says, whatever the other runs hold. */
  lemma ViewOfApply(sys: System, c: Commit, run: RunId)
    requires c.Enqueue? ==> c.pending.id !in sys.store.approvals
    ensures View(Apply(sys, c), run) == OnView(View(sys, run), run, c)
  {
    match c
    case Enqueue(r) => ViewOfEnqueue(sys, r, run);
    case Decide(id, s) => ViewOfDecide(sys, id, s, run);
    case Trip(r) => ViewOfTrip(sys, r, run);
    case Effect(r, a) => ViewOfEffect(sys, r, a, run);
    case Record(r, s, cost) => ViewOfRecord(sys, r, s, cost, run);
    case Put(r, k, record) => ViewOfPut(sys, r, k, record, run);
    case Audit(r, a, d) => ViewOfAudit(sys, r, a, d, run);
  }

  /** At most one write enqueues, under an id not in use. */
  ghost predicate EnqueuesFresh(st: Store, cs: seq<Commit>) {
    forall i :: 0 <= i < |cs| && cs[i].Enqueue? ==>
      cs[i].pending.id !in st.approvals && forall j :: 0 <= j < i ==> !cs[j].Enqueue?
  }

  lemma {:induction false} ViewOfApplyAll(sys: System, cs: seq<Commit>, run: RunId)
    requires EnqueuesFresh(sys.store, cs)
    ensures View(ApplyAll(sys, cs), run) == OnViewAll(View(sys, run), run, cs)
  {
    if cs != [] {
      var init := cs[..|cs| - 1];
      PrefixEnqueuesFresh(sys.store, cs, |cs| - 1);
      ViewOfApplyAll(sys, init, run);
      if cs[|cs| - 1].Enqueue? { SameIds(sys, init); }
      ViewOfApply(ApplyAll(sys, init), cs[|cs| - 1], run);
    }
  }

  lemma PrefixEnqueuesFresh(st: Store, cs: seq<Commit>, n: nat)
    requires EnqueuesFresh(st, cs) && n <= |cs|
    ensures EnqueuesFresh(st, cs[..n])
    ensures n < |cs| && cs[n].Enqueue? ==> forall j :: 0 <= j < n ==> !cs[..n][j].Enqueue?
  {
    forall i | 0 <= i < n && cs[..n][i].Enqueue?
      ensures cs[..n][i].pending.id !in st.approvals && forall j :: 0 <= j < i ==> !cs[..n][j].Enqueue?
    {
      assert cs[..n][i] == cs[i];
    }
  }

  lemma {:induction false} SameIds(sys: System, cs: seq<Commit>)
    requires forall j :: 0 <= j < |cs| ==> !cs[j].Enqueue?
    ensures ApplyAll(sys, cs).store.approvals.Keys == sys.store.approvals.Keys
  {
    if cs != [] { SameIds(sys, cs[..|cs| - 1]); }
  }

  lemma OnViewAllConcat(v: RunView, run: RunId, a: seq<Commit>, b: seq<Commit>)
    ensures OnViewAll(v, run, a + b) == OnViewAll(OnViewAll(v, run, a), run, b)
    decreases |b|
  {
    if b == [] {
      assert a + b == a;
    } else {
      assert (a + b)[..|a + b| - 1] == a + b[..|b| - 1];
      OnViewAllConcat(v, run, a, b[..|b| - 1]);
    }
  }

  lemma OnViewSome(v: RunView, run: RunId, c: Commit, d: Commit, e: Commit, f: Commit)
    ensures OnViewAll(v, run, [c]) == OnView(v, run, c)
    ensures OnViewAll(v, run, [c, d]) == OnView(OnView(v, run, c), run, d)
    ensures OnViewAll(v, run, [c, d, e]) == OnView(OnView(OnView(v, run, c), run, d), run, e)
    ensures OnViewAll(v, run, [c, d, e, f]) == OnView(OnView(OnView(OnView(v, run, c), run, d), run, e), run, f)
  {
    assert [c][..0] == [];
    assert OnViewAll(v, run, []) == v;
    assert [c, d][..1] == [c];
    assert [c, d, e][..2] == [c, d];
    assert [c, d, e, f][..3] == [c, d, e];
  }

  // ---------------------------------------------------------------- a call sees only its run

  predicate ApprovedIn(v: RunView, run: RunId, key: Key) {
    (run, key) in v.byKey && v.byKey[(run, key)] in v.approvals && v.approvals[v.byKey[(run, key)]].state == Approved
  }

  function AskView(v: RunView, run: RunId, a: Action): Answers {
    Answers(v.row.open,
            if (run, a.key) in v.stored then Some(v.stored[(run, a.key)]) else None,
            if (run, a.key) in v.byKey then Some(v.byKey[(run, a.key)]) else None,
            ApprovedIn(v, run, a.key), CountIn(v.counts, run, a.subject), v.row.spend)
  }

  function CommitsOnView(v: RunView, p: Policy, c: Call): seq<Commit> {
    match c
    case Execute(run, reg, a, out, minted) => ChainCommits(AskView(v, run, a), p, run, reg, a, out, minted)
    case Approve(run, reg, id, out, minted) =>
      if id !in v.approvals then []
      else
        var a := v.approvals[id].action;
        if v.approvals[id].state == Approved then ChainCommits(AskView(v, run, a), p, run, reg, a, out, minted)
        else [Decide(id, Approved)]
             + ChainCommits(AskView(OnView(v, run, Decide(id, Approved)), run, a), p, run, reg, a, out, minted)
    case Reject(run, id) => if id in v.approvals then [Decide(id, Rejected)] else []
  }

  function ReplyToView(v: RunView, p: Policy, c: Call): Reply {
    match c
    case Execute(run, reg, a, out, minted) => ChainReply(AskView(v, run, a), p, reg, a, out, minted)
    case Approve(run, reg, id, out, minted) =>
      if id !in v.approvals then ApprovalError
      else
        var a := v.approvals[id].action;
        if v.approvals[id].state == Approved then ChainReply(AskView(v, run, a), p, reg, a, out, minted)
        else ChainReply(AskView(OnView(v, run, Decide(id, Approved)), run, a), p, reg, a, out, minted)
    case Reject(run, id) => if id in v.approvals then Done else ApprovalError
  }

  /** Every question the chain asks the store has the same answer in the run's view. */
  lemma SameAnswers(sys: System, run: RunId, a: Action)
    requires Indexed(sys.store.approvals, sys.store.byKey)
    ensures Ask(sys.store, run, a) == AskView(View(sys, run), run, a)
  {
  }

  /** What a call commits and replies is a function of its own run's view. */
  lemma CallSeesItsRun(sys: System, p: Policy, c: Call)
    requires Indexed(sys.store.approvals, sys.store.byKey)
    ensures Commits(sys.store, p, c) == CommitsOnView(View(sys, c.run), p, c)
    ensures ReplyTo(sys.store, p, c) == ReplyToView(View(sys, c.run), p, c)
  {
    match c
    case Execute(run, _, a, _, _) => SameAnswers(sys, run, a);
    case Approve(run, _, id, _, _) =>
      if Owned(sys.store, run, id) {
        var a := sys.store.approvals[id].action;
        SameAnswers(sys, run, a);
        ViewOfDecide(sys, id, Approved, run);
        DecideKeepsIndex(sys.store, id, Approved);
        SameAnswers(Apply(sys, Decide(id, Approved)), run, a);
      }
    case Reject(_, _) =>
  }

  lemma DecideKeepsIndex(st: Store, id: ApprovalId, s: ApprovalState)
    requires Indexed(st.approvals, st.byKey)
    ensures Indexed(ApplyToStore(st, Decide(id, s)).approvals, ApplyToStore(st, Decide(id, s)).byKey)
  {
  }

  predicate OnRun(c: Commit, run: RunId) {
    match c
    case Enqueue(r) => r.run == run
    case Decide(_, _) => true
    case Trip(r) => r == run
    case Effect(r, _) => r == run
    case Record(r, _, _) => r == run
    case Put(r, _, _) => r == run
    case Audit(r, _, _) => r == run
  }

  predicate AllOnRun(cs: seq<Commit>, run: RunId) {
    forall i :: 0 <= i < |cs| ==> OnRun(cs[i], run)
  }
}
