/** Value objects of the guardrail layer, the abstract store both implementations stand for,
    and the guard chain written as the list of writes one call commits, in order.
    Cutting that list short is what a crash does. */
module GuardModel {
  import opened Wrappers

  type RunId = string
  type Subject = string
  type Key = string
  type ApprovalId = string
  /** JSON text of a handler result or of an action's parameters. */
  type Payload = string

  datatype Status =
    | Executed | Duplicate | PendingApproval
    | RejectedActionBudget | RejectedSpendCap | RejectedBreakerOpen

  /** What an audit entry records: a status, or the `error` of a raising handler. */
  datatype Decision = Verdict(status: Status) | HandlerError

  datatype ApprovalState = Pending | Approved | Rejected

  datatype Policy = Policy(threshold: real, budget: int, cap: real)

  datatype Action = Action(name: string, subject: Subject, key: Key, cost: real, params: Payload)

  datatype Approval = Approval(id: ApprovalId, run: RunId, action: Action, state: ApprovalState)

  datatype IdemRecord = IdemRecord(status: Status, result: Payload)

  datatype AuditEntry = AuditEntry(run: RunId, seqNo: nat, action: Action, decision: Decision)

  /** What the private handler does when the executor calls it. */
  datatype Outcome = Returned(result: Payload) | Raised(error: string)

  datatype Reply =
    | Result(status: Status, key: Key, result: Option<Payload>, approvalId: Option<ApprovalId>)
    | UnknownAction(name: string)
    | Propagated(error: string)
    | ApprovalError
    | Done

  // ---------------------------------------------------------------- the abstract store

  datatype RunRow = RunRow(spend: real, open: bool)

  datatype Store = Store(
    results: map<(RunId, Key), IdemRecord>,
    approvals: map<ApprovalId, Approval>,
    byKey: map<(RunId, Key), ApprovalId>,
    counts: map<(RunId, Subject), nat>,
    runs: map<RunId, RunRow>,
    audit: seq<AuditEntry>)

  const EMPTY_STORE := Store(map[], map[], map[], map[], map[], [])

  function RowOf(st: Store, run: RunId): RunRow {
    if run in st.runs then st.runs[run] else RunRow(0.0, false)
  }

  function Spend(st: Store, run: RunId): real { RowOf(st, run).spend }

  predicate Open(st: Store, run: RunId) { RowOf(st, run).open }

  function Count(st: Store, run: RunId, subject: Subject): nat {
    if (run, subject) in st.counts then st.counts[(run, subject)] else 0
  }

  /** The audit entries of one run, oldest first. */
  function Log(audit: seq<AuditEntry>, run: RunId): seq<AuditEntry> {
    if audit == [] then []
    else
      var last := audit[|audit| - 1];
      Log(audit[..|audit| - 1], run) + if last.run == run then [last] else []
  }

  /** What still waits for a decision in one run. */
  function PendingOf(st: Store, run: RunId): set<ApprovalId> {
    set id | id in st.approvals && st.approvals[id].run == run && st.approvals[id].state == Pending
  }

  predicate IsApproved(st: Store, run: RunId, key: Key) {
    && (run, key) in st.byKey
    && st.byKey[(run, key)] in st.approvals
    && st.approvals[st.byKey[(run, key)]].state == Approved
  }

  /** Records and their index by (run, key) describe each other one to one. */
  ghost predicate Indexed(approvals: map<ApprovalId, Approval>, byKey: map<(RunId, Key), ApprovalId>) {
    && (forall run, key :: (run, key) in byKey ==>
          && byKey[(run, key)] in approvals
          && approvals[byKey[(run, key)]].run == run
          && approvals[byKey[(run, key)]].action.key == key)
    && (forall id :: id in approvals ==>
          && approvals[id].id == id
          && (approvals[id].run, approvals[id].action.key) in byKey
          && byKey[(approvals[id].run, approvals[id].action.key)] == id)
  }

  /** Every run's entries are numbered 1, 2, 3, ... in the order they were appended. */
  ghost predicate AllNumbered(audit: seq<AuditEntry>) {
    forall run :: Numbered(Log(audit, run))
  }

  ghost predicate WellFormed(st: Store) {
    Indexed(st.approvals, st.byKey) && AllNumbered(st.audit)
  }

  ghost predicate Numbered(log: seq<AuditEntry>) {
    forall i :: 0 <= i < |log| ==> log[i].seqNo == i + 1
  }

  // ---------------------------------------------------------------- committed writes

  datatype Commit =
    | Enqueue(pending: Approval)
    | Decide(id: ApprovalId, state: ApprovalState)
    | Trip(run: RunId)
    | Effect(run: RunId, action: Action)
    | Record(run: RunId, subject: Subject, cost: real)
    | Put(run: RunId, key: Key, record: IdemRecord)
    | Audit(run: RunId, action: Action, decision: Decision)

  datatype Performed = Performed(run: RunId, action: Action)

  /** The store plus the effects the outside world has seen. */
  datatype System = System(store: Store, effects: seq<Performed>)

  const START := System(EMPTY_STORE, [])

  function ApplyToStore(st: Store, c: Commit): Store {
    match c
    case Enqueue(r) =>
      st.(approvals := st.approvals[r.id := r], byKey := st.byKey[(r.run, r.action.key) := r.id])
    case Decide(id, s) =>
      if id in st.approvals then st.(approvals := st.approvals[id := st.approvals[id].(state := s)]) else st
    case Trip(run) =>
      st.(runs := st.runs[run := RowOf(st, run).(open := true)])
    case Effect(_, _) => st
    case Record(run, subject, cost) =>
      st.(counts := st.counts[(run, subject) := Count(st, run, subject) + 1],
          runs := st.runs[run := RowOf(st, run).(spend := Spend(st, run) + cost)])
    case Put(run, key, r) =>
      st.(results := st.results[(run, key) := r])
    case Audit(run, a, d) =>
      st.(audit := st.audit + [AuditEntry(run, |Log(st.audit, run)| + 1, a, d)])
  }

  function Apply(sys: System, c: Commit): System {
    System(ApplyToStore(sys.store, c),
           if c.Effect? then sys.effects + [Performed(c.run, c.action)] else sys.effects)
  }

  function ApplyAll(sys: System, cs: seq<Commit>): System {
    if cs == [] then sys else Apply(ApplyAll(sys, cs[..|cs| - 1]), cs[|cs| - 1])
  }

  // ---------------------------------------------------------------- the guard chain

  /** One call on an executor. `registered` is that executor's handler table, `outcome` what the
      handler does if it is reached, and `minted` the id the store mints if it enqueues. */
  datatype Call =
    | Execute(run: RunId, registered: set<string>, action: Action, outcome: Outcome, minted: ApprovalId)
    | Approve(run: RunId, registered: set<string>, id: ApprovalId, outcome: Outcome, minted: ApprovalId)
    | Reject(run: RunId, id: ApprovalId)

  /** What the chain reads from the store about one action. */
  datatype Answers = Answers(
    open: bool, stored: Option<IdemRecord>, approval: Option<ApprovalId>, approved: bool, used: nat, spent: real)

  function Ask(st: Store, run: RunId, a: Action): Answers {
    Answers(Open(st, run),
            if (run, a.key) in st.results then Some(st.results[(run, a.key)]) else None,
            if (run, a.key) in st.byKey then Some(st.byKey[(run, a.key)]) else None,
            IsApproved(st, run, a.key), Count(st, run, a.subject), Spend(st, run))
  }

  function ChainCommits(q: Answers, p: Policy, run: RunId, registered: set<string>, a: Action,
                        outcome: Outcome, minted: ApprovalId): seq<Commit>
  {
    if q.open then [Audit(run, a, Verdict(RejectedBreakerOpen))]
    else if q.stored.Some? then [Audit(run, a, Verdict(Duplicate))]
    else if a.name !in registered then []
    else if a.cost > p.threshold && !q.approved then GateCommits(q, run, a, minted)
    else SpendCommits(q, p, run, a, outcome)
  }

  /** Above the threshold and not approved: the action waits, and is enqueued on first sight. */
  function GateCommits(q: Answers, run: RunId, a: Action, minted: ApprovalId): seq<Commit> {
    if q.approval.Some? then [Audit(run, a, Verdict(PendingApproval))]
    else [Enqueue(Approval(minted, run, a, Pending)), Audit(run, a, Verdict(PendingApproval))]
  }

  /** Steps 4 to 6, for an action the breaker, the stored results and the gate let through. */
  function SpendCommits(q: Answers, p: Policy, run: RunId, a: Action, outcome: Outcome): seq<Commit> {
    if q.used >= p.budget then [Audit(run, a, Verdict(RejectedActionBudget))]
    else if q.spent + a.cost > p.cap then [Trip(run), Audit(run, a, Verdict(RejectedSpendCap))]
    else EffectCommits(run, a, outcome)
  }

  function EffectCommits(run: RunId, a: Action, outcome: Outcome): seq<Commit> {
    match outcome
    case Raised(_) => [Audit(run, a, HandlerError)]
    case Returned(v) =>
      [Effect(run, a), Record(run, a.subject, a.cost), Put(run, a.key, IdemRecord(Executed, v)),
       Audit(run, a, Verdict(Executed))]
  }

  function ChainReply(q: Answers, p: Policy, registered: set<string>, a: Action,
                      outcome: Outcome, minted: ApprovalId): Reply
  {
    if q.open then Result(RejectedBreakerOpen, a.key, None, None)
    else if q.stored.Some? then Result(Duplicate, a.key, Some(q.stored.value.result), None)
    else if a.name !in registered then UnknownAction(a.name)
    else if a.cost > p.threshold && !q.approved then
      Result(PendingApproval, a.key, None, Some(if q.approval.Some? then q.approval.value else minted))
    else SpendReply(q, p, a, outcome)
  }

  function SpendReply(q: Answers, p: Policy, a: Action, outcome: Outcome): Reply {
    if q.used >= p.budget then Result(RejectedActionBudget, a.key, None, None)
    else if q.spent + a.cost > p.cap then Result(RejectedSpendCap, a.key, None, None)
    else EffectReply(a, outcome)
  }

  function EffectReply(a: Action, outcome: Outcome): Reply {
    match outcome
    case Raised(e) => Propagated(e)
    case Returned(v) => Result(Executed, a.key, Some(v), None)
  }

  function ExecuteCommits(st: Store, p: Policy, run: RunId, registered: set<string>, a: Action,
                          outcome: Outcome, minted: ApprovalId): seq<Commit>
  {
    ChainCommits(Ask(st, run, a), p, run, registered, a, outcome, minted)
  }

  function ExecuteReply(st: Store, p: Policy, run: RunId, registered: set<string>, a: Action,
                        outcome: Outcome, minted: ApprovalId): Reply
  {
    ChainReply(Ask(st, run, a), p, registered, a, outcome, minted)
  }

  /** `approve` and `reject_approval` raise for an id that is unknown or belongs to another run. */
  predicate Owned(st: Store, run: RunId, id: ApprovalId) {
    id in st.approvals && st.approvals[id].run == run
  }

  function Commits(st: Store, p: Policy, c: Call): seq<Commit> {
    match c
    case Execute(run, reg, a, out, minted) => ExecuteCommits(st, p, run, reg, a, out, minted)
    case Approve(run, reg, id, out, minted) =>
      if !Owned(st, run, id) then []
      else if st.approvals[id].state == Approved then
        ExecuteCommits(st, p, run, reg, st.approvals[id].action, out, minted)
      else
        [Decide(id, Approved)]
        + ExecuteCommits(ApplyToStore(st, Decide(id, Approved)), p, run, reg, st.approvals[id].action, out, minted)
    case Reject(run, id) => if Owned(st, run, id) then [Decide(id, Rejected)] else []
  }

  function ReplyTo(st: Store, p: Policy, c: Call): Reply {
    match c
    case Execute(run, reg, a, out, minted) => ExecuteReply(st, p, run, reg, a, out, minted)
    case Approve(run, reg, id, out, minted) =>
      if !Owned(st, run, id) then ApprovalError
      else if st.approvals[id].state == Approved then
        ExecuteReply(st, p, run, reg, st.approvals[id].action, out, minted)
      else
        ExecuteReply(ApplyToStore(st, Decide(id, Approved)), p, run, reg, st.approvals[id].action, out, minted)
    case Reject(run, id) => if Owned(st, run, id) then Done else ApprovalError
  }

  /** Approval ids come from a generator that never repeats one. */
  predicate Fresh(st: Store, c: Call) {
    c.Reject? || c.minted !in st.approvals
  }

  function CallOn(sys: System, p: Policy, c: Call): System {
    ApplyAll(sys, Commits(sys.store, p, c))
  }

  // ---------------------------------------------------------------- facts every proof uses

  lemma {:induction false} ApplyAllConcat(sys: System, a: seq<Commit>, b: seq<Commit>)
    ensures ApplyAll(sys, a + b) == ApplyAll(ApplyAll(sys, a), b)
    decreases |b|
  {
    if b == [] {
      assert a + b == a;
    } else {
      var n := |b| - 1;
      assert (a + b)[..|a + b| - 1] == a + b[..n];
      ApplyAllConcat(sys, a, b[..n]);
    }
  }

  lemma ApplyAll1(sys: System, c: Commit)
    ensures ApplyAll(sys, [c]) == Apply(sys, c)
  {
    assert [c][..0] == [];
    assert ApplyAll(sys, []) == sys;
  }

  lemma ApplyAll2(sys: System, c: Commit, d: Commit)
    ensures ApplyAll(sys, [c, d]) == Apply(Apply(sys, c), d)
  {
    assert [c, d][..1] == [c];
    ApplyAll1(sys, c);
  }

  lemma ApplyAll4(sys: System, c: Commit, d: Commit, e: Commit, f: Commit)
    ensures ApplyAll(sys, [c, d, e, f]) == Apply(Apply(Apply(Apply(sys, c), d), e), f)
  {
    ApplyAllConcat(sys, [c, d], [e, f]);
    assert [c, d] + [e, f] == [c, d, e, f];
    ApplyAll2(sys, c, d);
    ApplyAll2(ApplyAll(sys, [c, d]), e, f);
  }

  lemma LogAppend(audit: seq<AuditEntry>, e: AuditEntry, run: RunId)
    ensures Log(audit + [e], run) == Log(audit, run) + if e.run == run then [e] else []
  {
    assert (audit + [e])[..|audit|] == audit;
  }

  lemma EnqueueKeepsIndex(approvals: map<ApprovalId, Approval>, byKey: map<(RunId, Key), ApprovalId>, r: Approval)
    requires Indexed(approvals, byKey)
    requires r.id !in approvals && (r.run, r.action.key) !in byKey
    ensures Indexed(approvals[r.id := r], byKey[(r.run, r.action.key) := r.id])
  {
  }

  lemma AppendKeepsNumbers(audit: seq<AuditEntry>, e: AuditEntry)
    requires AllNumbered(audit) && e.seqNo == |Log(audit, e.run)| + 1
    ensures AllNumbered(audit + [e])
  {
    forall run ensures Numbered(Log(audit + [e], run)) {
      assert Numbered(Log(audit, run));
      LogAppend(audit, e, run);
    }
  }

  /** Every single write keeps the store well formed, given a fresh id and an unused key when enqueueing. */
  lemma ApplyKeepsWellFormed(st: Store, c: Commit)
    requires WellFormed(st)
    requires c.Enqueue? ==> c.pending.id !in st.approvals && (c.pending.run, c.pending.action.key) !in st.byKey
    ensures WellFormed(ApplyToStore(st, c))
  {
    if c.Enqueue? {
      EnqueueKeepsIndex(st.approvals, st.byKey, c.pending);
    } else if c.Audit? {
      AppendKeepsNumbers(st.audit, AuditEntry(c.run, |Log(st.audit, c.run)| + 1, c.action, c.decision));
    }
  }
}
