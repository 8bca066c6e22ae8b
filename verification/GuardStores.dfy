/** The two implementations of the storage contract, each proved to carry out the abstract
    store's writes: dictionaries with per-run counters, and tables with max + 1 queries. */
module GuardStores {
  import opened Wrappers
  import opened GuardModel

  // ---------------------------------------------------------------- in memory

  /** What the spend and breaker dictionaries say about each run. */
  function Rows(spend: map<RunId, real>, breaker: map<RunId, bool>): map<RunId, RunRow> {
    map r | r in spend.Keys + breaker.Keys :: RunRow(SpendIn(spend, r), r in breaker && breaker[r])
  }

  function SpendIn(spend: map<RunId, real>, run: RunId): real { if run in spend then spend[run] else 0.0 }

  lemma RowsSpent(spend: map<RunId, real>, breaker: map<RunId, bool>, run: RunId, total: real)
    ensures Rows(spend[run := total], breaker)
        == Rows(spend, breaker)[run := RunRow(total, run in breaker && breaker[run])]
  {
  }

  lemma RowsTripped(spend: map<RunId, real>, breaker: map<RunId, bool>, run: RunId)
    ensures Rows(spend, breaker[run := true]) == Rows(spend, breaker)[run := RunRow(SpendIn(spend, run), true)]
  {
  }

  /** Each run's counter is the number of its entries. */
  ghost predicate NumbersFollow(seqs: map<RunId, nat>, audit: seq<AuditEntry>) {
    forall r :: (if r in seqs then seqs[r] else 0) == |Log(audit, r)|
  }

  lemma NextNumberFollows(seqs: map<RunId, nat>, audit: seq<AuditEntry>, e: AuditEntry)
    requires NumbersFollow(seqs, audit)
    ensures NumbersFollow(seqs[e.run := (if e.run in seqs then seqs[e.run] else 0) + 1], audit + [e])
  {
    forall r { LogAppend(audit, e, r); }
  }

  lemma SameRecords(a: Store, b: Store)
    requires WellFormed(a) && b.approvals == a.approvals && b.byKey == a.byKey && b.audit == a.audit
    ensures WellFormed(b)
  {
  }

  ghost function Counted(st: Store, run: RunId, subject: Subject): Store {
    st.(counts := st.counts[(run, subject) := Count(st, run, subject) + 1])
  }

  ghost function Charged(st: Store, run: RunId, cost: real): Store {
    st.(runs := st.runs[run := RowOf(st, run).(spend := Spend(st, run) + cost)])
  }

  lemma RecordInTwo(st: Store, run: RunId, subject: Subject, cost: real)
    ensures ApplyToStore(st, Record(run, subject, cost)) == Charged(Counted(st, run, subject), run, cost)
  {
  }

  class InMemoryGuardStore {
    var idem: map<(RunId, Key), IdemRecord>
    var approvals: map<ApprovalId, Approval>
    var approvalByKey: map<(RunId, Key), ApprovalId>
    var execCounts: map<(RunId, Subject), nat>
    var spend: map<RunId, real>
    var breaker: map<RunId, bool>
    var audit: seq<AuditEntry>
    var seqs: map<RunId, nat>

    ghost function Model(): Store
      reads this
    {
      Store(idem, approvals, approvalByKey, execCounts, Rows(spend, breaker), audit)
    }

    ghost predicate Valid()
      reads this
    {
      && WellFormed(Model())
      && NumbersFollow(seqs, audit)
    }

    constructor ()
      ensures Valid() && Model() == EMPTY_STORE
    {
      idem, approvals, approvalByKey, execCounts := map[], map[], map[], map[];
      spend, breaker, audit, seqs := map[], map[], [], map[];
    }

    method GetResult(run: RunId, key: Key) returns (r: Option<IdemRecord>)
      ensures r == if (run, key) in Model().results then Some(Model().results[(run, key)]) else None
    {
      return if (run, key) in idem then Some(idem[(run, key)]) else None;
    }

    /** Overwrites: the later result wins. */
    method PutResult(run: RunId, key: Key, record: IdemRecord)
      requires Valid()
      modifies this
      ensures Valid() && Model() == ApplyToStore(old(Model()), Put(run, key, record))
    {
      ApplyKeepsWellFormed(Model(), Put(run, key, record));
      idem := idem[(run, key) := record];
      assert Model() == ApplyToStore(old(Model()), Put(run, key, record));
    }

    method GetApproval(run: RunId, key: Key) returns (r: Option<Approval>)
      requires Valid()
      ensures r == if (run, key) in Model().byKey then Some(Model().approvals[Model().byKey[(run, key)]]) else None
    {
      if (run, key) !in approvalByKey { return None; }
      assert Indexed(approvals, approvalByKey);
      return Some(approvals[approvalByKey[(run, key)]]);
    }

    method GetApprovalById(id: ApprovalId) returns (r: Option<Approval>)
      ensures r == if id in Model().approvals then Some(Model().approvals[id]) else None
    {
      return if id in approvals then Some(approvals[id]) else None;
    }

    method CreatePending(run: RunId, a: Action, minted: ApprovalId) returns (r: Approval)
      requires Valid() && minted !in Model().approvals
      modifies this
      ensures Valid()
      ensures (run, a.key) in old(Model()).byKey ==>
                Model() == old(Model()) && r == Model().approvals[Model().byKey[(run, a.key)]]
      ensures (run, a.key) !in old(Model()).byKey ==>
                r == Approval(minted, run, a, Pending) && Model() == ApplyToStore(old(Model()), Enqueue(r))
    {
      assert Indexed(approvals, approvalByKey);
      if (run, a.key) in approvalByKey {
        return approvals[approvalByKey[(run, a.key)]];
      }
      r := Approval(minted, run, a, Pending);
      ApplyKeepsWellFormed(Model(), Enqueue(r));
      approvals := approvals[minted := r];
      approvalByKey := approvalByKey[(run, a.key) := minted];
      assert Model() == ApplyToStore(old(Model()), Enqueue(r));
    }

    /** `found` is false where the dictionary lookup raises. */
    method SetApprovalState(id: ApprovalId, state: ApprovalState) returns (found: bool)
      requires Valid()
      modifies this
      ensures Valid() && found == (id in old(Model()).approvals)
      ensures Model() == ApplyToStore(old(Model()), Decide(id, state))
    {
      ApplyKeepsWellFormed(Model(), Decide(id, state));
      found := id in approvals;
      if found {
        approvals := approvals[id := approvals[id].(state := state)];
      }
      assert Model() == ApplyToStore(old(Model()), Decide(id, state));
    }

    method ListPending(run: RunId) returns (ids: set<ApprovalId>)
      ensures ids == PendingOf(Model(), run)
    {
      return set id | id in approvals && approvals[id].run == run && approvals[id].state == Pending;
    }

    method SubjectExecutedCount(run: RunId, subject: Subject) returns (n: nat)
      ensures n == Count(Model(), run, subject)
    {
      return if (run, subject) in execCounts then execCounts[(run, subject)] else 0;
    }

    method AccumulatedSpend(run: RunId) returns (s: real)
      ensures s == Spend(Model(), run)
    {
      return if run in spend then spend[run] else 0.0;
    }

    method RecordExecution(run: RunId, subject: Subject, cost: real)
      requires Valid()
      modifies this
      ensures Valid() && Model() == ApplyToStore(old(Model()), Record(run, subject, cost))
    {
      ghost var was := Model();
      CountExecution(run, subject);
      AddSpend(run, cost);
      RecordInTwo(was, run, subject, cost);
      SameRecords(was, Model());
    }

    method CountExecution(run: RunId, subject: Subject)
      modifies this`execCounts
      ensures Model() == Counted(old(Model()), run, subject)
    {
      var n := if (run, subject) in execCounts then execCounts[(run, subject)] else 0;
      execCounts := execCounts[(run, subject) := n + 1];
    }

    method AddSpend(run: RunId, cost: real)
      modifies this`spend
      ensures Model() == Charged(old(Model()), run, cost)
    {
      RowsSpent(spend, breaker, run, SpendIn(spend, run) + cost);
      spend := spend[run := (if run in spend then spend[run] else 0.0) + cost];
    }

    method IsBreakerOpen(run: RunId) returns (b: bool)
      ensures b == Open(Model(), run)
    {
      return run in breaker && breaker[run];
    }

    method TripBreaker(run: RunId)
      requires Valid()
      modifies this
      ensures Valid() && Model() == ApplyToStore(old(Model()), Trip(run))
    {
      ApplyKeepsWellFormed(Model(), Trip(run));
      RowsTripped(spend, breaker, run);
      breaker := breaker[run := true];
      assert Model() == ApplyToStore(old(Model()), Trip(run));
    }

    method AppendAudit(run: RunId, a: Action, d: Decision)
      requires Valid()
      modifies this
      ensures Valid() && Model() == ApplyToStore(old(Model()), Audit(run, a, d))
    {
      ApplyKeepsWellFormed(Model(), Audit(run, a, d));
      var n := (if run in seqs then seqs[run] else 0) + 1;
      NextNumberFollows(seqs, audit, AuditEntry(run, n, a, d));
      seqs := seqs[run := n];
      audit := audit + [AuditEntry(run, n, a, d)];
      assert Model() == ApplyToStore(old(Model()), Audit(run, a, d));
    }
  }

  // ---------------------------------------------------------------- SQL tables

  datatype RunStateRow = RunStateRow(accumulatedSpend: real, breakerOpen: bool, reason: string)

  /** Approval rows in insertion order, seen as the two lookups the executor makes. */
  ghost function ById(rows: seq<Approval>): map<ApprovalId, Approval> {
    if rows == [] then map[]
    else ById(rows[..|rows| - 1])[rows[|rows| - 1].id := rows[|rows| - 1]]
  }

  ghost function ByKey(rows: seq<Approval>): map<(RunId, Key), ApprovalId> {
    if rows == [] then map[]
    else
      var r := rows[|rows| - 1];
      ByKey(rows[..|rows| - 1])[(r.run, r.action.key) := r.id]
  }

  /** The primary key. */
  ghost predicate DistinctIds(rows: seq<Approval>) {
    forall i, j :: 0 <= i < j < |rows| ==> rows[i].id != rows[j].id
  }

  function RowKey(r: Approval): (RunId, Key) { (r.run, r.action.key) }

  /** At most one row per (run, key). */
  ghost predicate DistinctKeys(rows: seq<Approval>) {
    forall i, j :: 0 <= i < j < |rows| ==> RowKey(rows[i]) != RowKey(rows[j])
  }

  lemma {:induction false} RowStored(rows: seq<Approval>, i: nat)
    requires DistinctIds(rows) && i < |rows|
    ensures rows[i].id in ById(rows) && ById(rows)[rows[i].id] == rows[i]
  {
    if i < |rows| - 1 { RowStored(rows[..|rows| - 1], i); }
  }

  lemma {:induction false} KeyStored(rows: seq<Approval>, i: nat)
    requires DistinctKeys(rows) && i < |rows|
    ensures RowKey(rows[i]) in ByKey(rows) && ByKey(rows)[RowKey(rows[i])] == rows[i].id
  {
    if i < |rows| - 1 { KeyStored(rows[..|rows| - 1], i); }
  }

  /** A scan that finds no row with this id proves the id is not stored; likewise for a key. */
  lemma {:induction false} IdAbsent(rows: seq<Approval>, id: ApprovalId)
    requires forall i :: 0 <= i < |rows| ==> rows[i].id != id
    ensures id !in ById(rows)
  {
    if rows != [] { IdAbsent(rows[..|rows| - 1], id); }
  }

  lemma {:induction false} KeyAbsent(rows: seq<Approval>, rk: (RunId, Key))
    requires forall i :: 0 <= i < |rows| ==> RowKey(rows[i]) != rk
    ensures rk !in ByKey(rows)
  {
    if rows != [] { KeyAbsent(rows[..|rows| - 1], rk); }
  }

  lemma AppendRow(rows: seq<Approval>, r: Approval)
    requires DistinctIds(rows) && DistinctKeys(rows)
    requires r.id !in ById(rows) && RowKey(r) !in ByKey(rows)
    ensures DistinctIds(rows + [r]) && DistinctKeys(rows + [r])
    ensures ById(rows + [r]) == ById(rows)[r.id := r]
    ensures ByKey(rows + [r]) == ByKey(rows)[RowKey(r) := r.id]
  {
    forall i | 0 <= i < |rows| ensures rows[i].id != r.id && RowKey(rows[i]) != RowKey(r) {
      RowStored(rows, i);
      KeyStored(rows, i);
    }
    assert (rows + [r])[..|rows|] == rows;
  }

  lemma UpdateKeepsDistinct(rows: seq<Approval>, i: nat, s: ApprovalState)
    requires i < |rows| && DistinctIds(rows) && DistinctKeys(rows)
    ensures DistinctIds(rows[i := rows[i].(state := s)]) && DistinctKeys(rows[i := rows[i].(state := s)])
  {
    var more := rows[i := rows[i].(state := s)];
    assert forall j :: 0 <= j < |rows| ==> more[j].id == rows[j].id && RowKey(more[j]) == RowKey(rows[j]);
  }

  lemma {:induction false} UpdateById(rows: seq<Approval>, i: nat, s: ApprovalState)
    requires i < |rows| && DistinctIds(rows)
    ensures ById(rows[i := rows[i].(state := s)]) == ById(rows)[rows[i].id := rows[i].(state := s)]
  {
    var n := |rows| - 1;
    var more := rows[i := rows[i].(state := s)];
    if i == n {
      assert more[..n] == rows[..n];
    } else {
      assert more[..n] == rows[..n][i := rows[i].(state := s)];
      UpdateById(rows[..n], i, s);
    }
  }

  lemma {:induction false} UpdateByKey(rows: seq<Approval>, i: nat, s: ApprovalState)
    requires i < |rows|
    ensures ByKey(rows[i := rows[i].(state := s)]) == ByKey(rows)
  {
    var n := |rows| - 1;
    var more := rows[i := rows[i].(state := s)];
    if i == n {
      assert more[..n] == rows[..n];
    } else {
      assert more[..n] == rows[..n][i := rows[i].(state := s)];
      UpdateByKey(rows[..n], i, s);
    }
  }

  lemma UpdateRow(rows: seq<Approval>, i: nat, s: ApprovalState)
    requires i < |rows| && DistinctIds(rows) && DistinctKeys(rows)
    ensures DistinctIds(rows[i := rows[i].(state := s)]) && DistinctKeys(rows[i := rows[i].(state := s)])
    ensures ById(rows[i := rows[i].(state := s)]) == ById(rows)[rows[i].id := rows[i].(state := s)]
    ensures ByKey(rows[i := rows[i].(state := s)]) == ByKey(rows)
  {
    UpdateKeepsDistinct(rows, i, s);
    UpdateById(rows, i, s);
    UpdateByKey(rows, i, s);
  }

  ghost function RunRows(table: map<RunId, RunStateRow>): map<RunId, RunRow> {
    map r | r in table :: RunRow(table[r].accumulatedSpend, table[r].breakerOpen)
  }

  lemma UpdateRunRow(table: map<RunId, RunStateRow>, run: RunId, row: RunStateRow)
    ensures RunRows(table[run := row]) == RunRows(table)[run := RunRow(row.accumulatedSpend, row.breakerOpen)]
  {
  }

  lemma CreatedThenWritten(was: map<RunId, RunStateRow>, now: map<RunId, RunStateRow>, run: RunId, row: RunStateRow)
    requires now == if run in was then was else was[run := RunStateRow(0.0, false, "")]
    ensures RunRows(now[run := row]) == RunRows(was)[run := RunRow(row.accumulatedSpend, row.breakerOpen)]
  {
    assert now[run := row] == was[run := row];
    UpdateRunRow(was, run, row);
  }

  /** The ids of the rows of one run that wait for a decision. */
  ghost function PendingIn(rows: seq<Approval>, run: RunId): set<ApprovalId> {
    set id | id in ById(rows) && ById(rows)[id].run == run && ById(rows)[id].state == Pending
  }

  lemma PendingSnoc(rows: seq<Approval>, r: Approval, run: RunId)
    requires r.id !in ById(rows)
    ensures PendingIn(rows + [r], run) == PendingIn(rows, run) + if r.run == run && r.state == Pending then {r.id}
        else {}
  {
    assert (rows + [r])[..|rows|] == rows;
    assert ById(rows + [r]) == ById(rows)[r.id := r];
  }

  lemma NewIdIsUnused(rows: seq<Approval>, i: nat)
    requires DistinctIds(rows) && i < |rows|
    ensures rows[i].id !in ById(rows[..i])
  {
    IdAbsent(rows[..i], rows[i].id);
  }

  /** The write of a table whose existing rows are left alone. */
  function PutKeepingFirst(st: Store, run: RunId, key: Key, record: IdemRecord): Store {
    if (run, key) in st.results then st else ApplyToStore(st, Put(run, key, record))
  }

  class SqlGuardStore {
    var idem: map<(RunId, Key), IdemRecord>
    var approvals: seq<Approval>
    var runState: map<RunId, RunStateRow>
    var subjectCount: map<(RunId, Subject), nat>
    var audit: seq<AuditEntry>

    ghost function Model(): Store
      reads this
    {
      Store(idem, ById(approvals), ByKey(approvals), subjectCount,
            RunRows(runState), audit)
    }

    ghost predicate Valid()
      reads this
    {
      WellFormed(Model()) && DistinctIds(approvals) && DistinctKeys(approvals)
    }

    constructor ()
      ensures Valid() && Model() == EMPTY_STORE
    {
      idem, approvals, runState, subjectCount, audit := map[], [], map[], map[], [];
    }

    method GetResult(run: RunId, key: Key) returns (r: Option<IdemRecord>)
      ensures r == if (run, key) in Model().results then Some(Model().results[(run, key)]) else None
    {
      return if (run, key) in idem then Some(idem[(run, key)]) else None;
    }

    /** Keeps the first result: a row that exists is left alone. */
    method PutResult(run: RunId, key: Key, record: IdemRecord)
      requires Valid()
      modifies this
      ensures Valid() && Model() == PutKeepingFirst(old(Model()), run, key, record)
    {
      ApplyKeepsWellFormed(Model(), Put(run, key, record));
      if (run, key) !in idem {
        idem := idem[(run, key) := record];
        assert Model() == ApplyToStore(old(Model()), Put(run, key, record));
      }
    }

    method GetApproval(run: RunId, key: Key) returns (r: Option<Approval>)
      requires Valid()
      ensures r == if (run, key) in Model().byKey then Some(Model().approvals[Model().byKey[(run, key)]]) else None
    {
      for i := 0 to |approvals|
        invariant forall j :: 0 <= j < i ==> RowKey(approvals[j]) != (run, key)
      {
        if approvals[i].run == run && approvals[i].action.key == key {
          RowStored(approvals, i);
          KeyStored(approvals, i);
          return Some(approvals[i]);
        }
      }
      KeyAbsent(approvals, (run, key));
      return None;
    }

    method GetApprovalById(id: ApprovalId) returns (r: Option<Approval>)
      requires Valid()
      ensures r == if id in Model().approvals then Some(Model().approvals[id]) else None
    {
      for i := 0 to |approvals|
        invariant forall j :: 0 <= j < i ==> approvals[j].id != id
      {
        if approvals[i].id == id {
          RowStored(approvals, i);
          return Some(approvals[i]);
        }
      }
      IdAbsent(approvals, id);
      return None;
    }

    method CreatePending(run: RunId, a: Action, minted: ApprovalId) returns (r: Approval)
      requires Valid() && minted !in Model().approvals
      modifies this
      ensures Valid()
      ensures (run, a.key) in old(Model()).byKey ==>
                Model() == old(Model()) && r == Model().approvals[Model().byKey[(run, a.key)]]
      ensures (run, a.key) !in old(Model()).byKey ==>
                r == Approval(minted, run, a, Pending) && Model() == ApplyToStore(old(Model()), Enqueue(r))
    {
      var existing := GetApproval(run, a.key);
      if existing.Some? { return existing.value; }
      r := Approval(minted, run, a, Pending);
      AppendRow(approvals, r);
      ApplyKeepsWellFormed(Model(), Enqueue(r));
      approvals := approvals + [r];
      assert Model() == ApplyToStore(old(Model()), Enqueue(r));
    }

    /** A missing row is silently left alone. */
    method SetApprovalState(id: ApprovalId, state: ApprovalState)
      requires Valid()
      modifies this
      ensures Valid() && Model() == ApplyToStore(old(Model()), Decide(id, state))
    {
      ApplyKeepsWellFormed(Model(), Decide(id, state));
      var i := 0;
      while i < |approvals| && approvals[i].id != id
        invariant i <= |approvals|
        invariant forall j :: 0 <= j < i ==> approvals[j].id != id
      {
        i := i + 1;
      }
      if i == |approvals| {
        IdAbsent(approvals, id);
      } else {
        RowStored(approvals, i);
        UpdateRow(approvals, i, state);
        approvals := approvals[i := approvals[i].(state := state)];
      }
      assert Model() == ApplyToStore(old(Model()), Decide(id, state));
    }

    method ListPending(run: RunId) returns (ids: set<ApprovalId>)
      requires Valid()
      ensures ids == PendingOf(Model(), run)
    {
      ids := {};
      assert approvals[..0] == [];
      for i := 0 to |approvals|
        invariant ids == PendingIn(approvals[..i], run)
      {
        assert approvals[..i + 1] == approvals[..i] + [approvals[i]];
        NewIdIsUnused(approvals, i);
        PendingSnoc(approvals[..i], approvals[i], run);
        if approvals[i].run == run && approvals[i].state == Pending { ids := ids + {approvals[i].id}; }
      }
      assert approvals[..|approvals|] == approvals;
    }

    method SubjectExecutedCount(run: RunId, subject: Subject) returns (n: nat)
      ensures n == Count(Model(), run, subject)
    {
      return if (run, subject) in subjectCount then subjectCount[(run, subject)] else 0;
    }

    method AccumulatedSpend(run: RunId) returns (s: real)
      ensures s == Spend(Model(), run)
    {
      return if run in runState then runState[run].accumulatedSpend else 0.0;
    }

    method GetOrCreateRunstate(run: RunId) returns (row: RunStateRow)
      modifies this`runState
      ensures run in runState && row == runState[run]
      ensures runState == if run in old(runState) then old(runState)
                          else old(runState)[run := RunStateRow(0.0, false, "")]
    {
      if run !in runState {
        runState := runState[run := RunStateRow(0.0, false, "")];
      }
      return runState[run];
    }

    method RecordExecution(run: RunId, subject: Subject, cost: real)
      requires Valid()
      modifies this
      ensures Valid() && Model() == ApplyToStore(old(Model()), Record(run, subject, cost))
    {
      ghost var was := Model();
      CountExecution(run, subject);
      AddSpend(run, cost);
      RecordInTwo(was, run, subject, cost);
      SameRecords(was, Model());
    }

    method CountExecution(run: RunId, subject: Subject)
      modifies this`subjectCount
      ensures Model() == Counted(old(Model()), run, subject)
    {
      var n := if (run, subject) in subjectCount then subjectCount[(run, subject)] + 1 else 1;
      subjectCount := subjectCount[(run, subject) := n];
    }

    method AddSpend(run: RunId, cost: real)
      modifies this`runState
      ensures Model() == Charged(old(Model()), run, cost)
    {
      ghost var was := runState;
      var row := GetOrCreateRunstate(run);
      row := row.(accumulatedSpend := row.accumulatedSpend + cost);
      CreatedThenWritten(was, runState, run, row);
      runState := runState[run := row];
    }

    method IsBreakerOpen(run: RunId) returns (b: bool)
      ensures b == Open(Model(), run)
    {
      return run in runState && runState[run].breakerOpen;
    }

    method TripBreaker(run: RunId, reason: string)
      requires Valid()
      modifies this
      ensures Valid() && Model() == ApplyToStore(old(Model()), Trip(run))
    {
      ghost var was := Model();
      OpenBreaker(run, reason);
      SameRecords(was, Model());
    }

    method OpenBreaker(run: RunId, reason: string)
      modifies this`runState
      ensures Model() == ApplyToStore(old(Model()), Trip(run))
    {
      ghost var was := runState;
      var row := GetOrCreateRunstate(run);
      row := row.(breakerOpen := true, reason := reason);
      CreatedThenWritten(was, runState, run, row);
      runState := runState[run := row];
    }

    /** `select max(seq)` over the run's rows, 0 when there are none. */
    method MaxSeq(run: RunId) returns (m: nat)
      requires Valid()
      ensures m == |Log(audit, run)|
    {
      m := 0;
      assert audit[..0] == [];
      for i := 0 to |audit|
        invariant Numbered(Log(audit[..i], run)) && m == |Log(audit[..i], run)|
      {
        assert audit[..i + 1] == audit[..i] + [audit[i]];
        LogAppend(audit[..i], audit[i], run);
        LogPrefix(audit, i + 1, run);
        assert Numbered(Log(audit, run));
        ghost var log := Log(audit[..i + 1], run);
        assert audit[i].run == run ==> log[|log| - 1] == audit[i] && log[|log| - 1].seqNo == |log|;
        if audit[i].run == run && audit[i].seqNo > m {
          m := audit[i].seqNo;
        }
      }
      assert audit[..|audit|] == audit;
    }

    method AppendAudit(run: RunId, a: Action, d: Decision)
      requires Valid()
      modifies this
      ensures Valid() && Model() == ApplyToStore(old(Model()), Audit(run, a, d))
    {
      ApplyKeepsWellFormed(Model(), Audit(run, a, d));
      var m := MaxSeq(run);
      audit := audit + [AuditEntry(run, m + 1, a, d)];
      assert Model() == ApplyToStore(old(Model()), Audit(run, a, d));
    }
  }

  lemma {:induction false} LogPrefix(audit: seq<AuditEntry>, n: nat, run: RunId)
    requires n <= |audit|
    ensures Log(audit[..n], run) <= Log(audit, run)
    decreases |audit|
  {
    if n == |audit| {
      assert audit[..n] == audit;
    } else {
      assert audit[..|audit| - 1][..n] == audit[..n];
      LogPrefix(audit[..|audit| - 1], n, run);
    }
  }

  // ---------------------------------------------------------------- the storage contract

  /** What the executor holds: either implementation, behind one contract. */
  datatype GuardStore = Memory(mem: InMemoryGuardStore) | Sql(sql: SqlGuardStore) {
    ghost function Object(): object { if Memory? then mem else sql }

    ghost function Model(): Store
      reads Object()
    {
      if Memory? then mem.Model() else sql.Model()
    }

    ghost predicate Valid()
      reads Object()
    {
      if Memory? then mem.Valid() else sql.Valid()
    }

    method GetResult(run: RunId, key: Key) returns (r: Option<IdemRecord>)
      ensures r == if (run, key) in Model().results then Some(Model().results[(run, key)]) else None
    {
      match this
      case Memory(m) => r := m.GetResult(run, key);
      case Sql(s) => r := s.GetResult(run, key);
    }

    /** The implementations agree on the key the executor has just found unused. */
    method PutResult(run: RunId, key: Key, record: IdemRecord)
      requires Valid()
      modifies Object()
      ensures Valid()
      ensures (run, key) !in old(Model()).results ==> Model() == ApplyToStore(old(Model()), Put(run, key, record))
    {
      match this
      case Memory(m) => m.PutResult(run, key, record);
      case Sql(s) => s.PutResult(run, key, record);
    }

    method GetApproval(run: RunId, key: Key) returns (r: Option<Approval>)
      requires Valid()
      ensures r == if (run, key) in Model().byKey then Some(Model().approvals[Model().byKey[(run, key)]]) else None
    {
      match this
      case Memory(m) => r := m.GetApproval(run, key);
      case Sql(s) => r := s.GetApproval(run, key);
    }

    method GetApprovalById(id: ApprovalId) returns (r: Option<Approval>)
      requires Valid()
      ensures r == if id in Model().approvals then Some(Model().approvals[id]) else None
    {
      match this
      case Memory(m) => r := m.GetApprovalById(id);
      case Sql(s) => r := s.GetApprovalById(id);
    }

    method CreatePending(run: RunId, a: Action, minted: ApprovalId) returns (r: Approval)
      requires Valid() && minted !in Model().approvals
      modifies Object()
      ensures Valid()
      ensures (run, a.key) in old(Model()).byKey ==>
                Model() == old(Model()) && r == Model().approvals[Model().byKey[(run, a.key)]]
      ensures (run, a.key) !in old(Model()).byKey ==>
                r == Approval(minted, run, a, Pending) && Model() == ApplyToStore(old(Model()), Enqueue(r))
    {
      match this
      case Memory(m) => r := m.CreatePending(run, a, minted);
      case Sql(s) => r := s.CreatePending(run, a, minted);
    }

    method SetApprovalState(id: ApprovalId, state: ApprovalState)
      requires Valid()
      modifies Object()
      ensures Valid() && Model() == ApplyToStore(old(Model()), Decide(id, state))
    {
      match this
      case Memory(m) => var _ := m.SetApprovalState(id, state);
      case Sql(s) => s.SetApprovalState(id, state);
    }

    method ListPending(run: RunId) returns (ids: set<ApprovalId>)
      requires Valid()
      ensures ids == PendingOf(Model(), run)
    {
      match this
      case Memory(m) => ids := m.ListPending(run);
      case Sql(s) => ids := s.ListPending(run);
    }

    method SubjectExecutedCount(run: RunId, subject: Subject) returns (n: nat)
      ensures n == Count(Model(), run, subject)
    {
      match this
      case Memory(m) => n := m.SubjectExecutedCount(run, subject);
      case Sql(s) => n := s.SubjectExecutedCount(run, subject);
    }

    method AccumulatedSpend(run: RunId) returns (s: real)
      ensures s == Spend(Model(), run)
    {
      match this
      case Memory(m) => s := m.AccumulatedSpend(run);
      case Sql(q) => s := q.AccumulatedSpend(run);
    }

    method RecordExecution(run: RunId, subject: Subject, cost: real)
      requires Valid()
      modifies Object()
      ensures Valid() && Model() == ApplyToStore(old(Model()), Record(run, subject, cost))
    {
      match this
      case Memory(m) => m.RecordExecution(run, subject, cost);
      case Sql(s) => s.RecordExecution(run, subject, cost);
    }

    method IsBreakerOpen(run: RunId) returns (b: bool)
      ensures b == Open(Model(), run)
    {
      match this
      case Memory(m) => b := m.IsBreakerOpen(run);
      case Sql(s) => b := s.IsBreakerOpen(run);
    }

    method TripBreaker(run: RunId, reason: string)
      requires Valid()
      modifies Object()
      ensures Valid() && Model() == ApplyToStore(old(Model()), Trip(run))
    {
      match this
      case Memory(m) => m.TripBreaker(run);
      case Sql(s) => s.TripBreaker(run, reason);
    }

    method AppendAudit(run: RunId, a: Action, d: Decision)
      requires Valid()
      modifies Object()
      ensures Valid() && Model() == ApplyToStore(old(Model()), Audit(run, a, d))
    {
      match this
      case Memory(m) => m.AppendAudit(run, a, d);
      case Sql(s) => s.AppendAudit(run, a, d);
    }
  }
}
